/**
 The browser login with several connectors. LoginStart leaves a PKCE record behind under a
 random state; LoginEnd, called back with that state and a code, reads the record, deletes it,
 exchanges the code with the record's verifier (section 4 of RFC 7636), checks the ID token
 against the record's nonce (section 3.1.3.7 of OpenID Connect Core 1.0) and creates a session.
 Callbacks run step by step and interleave; calls to the stores and the IdP may fail.
 */
module Login {
  import opened Traces

  type Connector = string

  /** One entry of a connector's PKCE store. */
  datatype Slot = Slot(connector: Connector, state: string)
  datatype Pkce = Pkce(verifier: string, nonce: string)

  /** A LoginStart that went through. */
  datatype Attempt = Attempt(slot: Slot, pkce: Pkce)

  /** The challenge made from a verifier, and the audience a connector expects in an ID token. */
  datatype Env = Env(hash: string -> string, audience: Connector -> string)

  /** What the IdP remembers about a code: the request it was issued for. */
  datatype Grant = Grant(client: string, challenge: string, nonce: string)

  /** A session LoginEnd created; `started` is the number of attempts begun before it. */
  datatype Session = Session(slot: Slot, code: string, pkce: Pkce, started: nat)

  datatype Callback =
    | Arrived(slot: Slot, code: string)
    | Got(slot: Slot, code: string, pkce: Pkce)
    | Exchanging(slot: Slot, code: string, pkce: Pkce)
    | Validating(slot: Slot, code: string, pkce: Pkce, aud: string, nonce: string)
    | Storing(slot: Slot, code: string, pkce: Pkce)
    | Ended(ok: bool)

  datatype State = State(
    pkce: map<Slot, Pkce>,
    codes: map<string, Grant>,
    callbacks: map<nat, Callback>,
    attempts: seq<Attempt>,
    sessions: seq<Session>)

  datatype Action =
    | LoginStart(slot: Slot, pkce: Pkce)
    | Authorize(code: string, grant: Grant)       // anybody may obtain codes for any request
    | Forget(slot: Slot)                          // the record's time to live
    | Call(w: nat, slot: Slot, code: string, error: string)
    | Get(w: nat, ok: bool)
    | Delete(w: nat, ok: bool)
    | Exchange(w: nat, ok: bool)
    | Validate(w: nat)
    | Store(w: nat, ok: bool)

  predicate At(s: State, w: nat, here: Callback -> bool) {
    w in s.callbacks && here(s.callbacks[w])
  }

  /** State, verifier and nonce are drawn at random, so they are new and not empty. */
  predicate Enabled(s: State, a: Action) {
    match a
    case LoginStart(slot, pkce) =>
      && pkce.nonce != ""
      && forall i :: 0 <= i < |s.attempts| ==>
           s.attempts[i].slot.state != slot.state && s.attempts[i].pkce.verifier != pkce.verifier
           && s.attempts[i].pkce.nonce != pkce.nonce
    case Authorize(code, _) => code !in s.codes
    case Forget(_) => true
    case Call(w, _, _, _) => w in s.callbacks ==> s.callbacks[w].Ended?
    case Get(w, _) => At(s, w, (p: Callback) => p.Arrived?)
    case Delete(w, _) => At(s, w, (p: Callback) => p.Got?)
    case Exchange(w, _) => At(s, w, (p: Callback) => p.Exchanging?)
    case Validate(w) => At(s, w, (p: Callback) => p.Validating?)
    case Store(w, _) => At(s, w, (p: Callback) => p.Storing?)
  }

  function Move(s: State, w: nat, p: Callback): State {
    s.(callbacks := s.callbacks[w := p])
  }

  /** The IdP hands out tokens for a code if the verifier answers its challenge. */
  predicate Exchanges(env: Env, s: State, p: Callback)
    requires p.Exchanging?
  {
    p.code in s.codes && s.codes[p.code].challenge == env.hash(p.pkce.verifier)
  }

  /** The ID token is for this connector's audience, if it expects one, and carries the attempt's nonce. */
  predicate Validates(env: Env, p: Callback)
    requires p.Validating?
  {
    && (env.audience(p.slot.connector) != "" ==> p.aud == env.audience(p.slot.connector))
    && (p.pkce.nonce != "" ==> p.nonce == p.pkce.nonce)
  }

  function Apply(env: Env, s: State, a: Action): State
    requires Enabled(s, a)
  {
    match a
    case LoginStart(slot, pkce) =>
      s.(pkce := s.pkce[slot := pkce], attempts := s.attempts + [Attempt(slot, pkce)])
    case Authorize(code, grant) => s.(codes := s.codes[code := grant])
    case Forget(slot) => s.(pkce := s.pkce - {slot})
    case Call(w, slot, code, error) =>
      Move(s, w, if error != "" || slot.state == "" || code == "" then Ended(false) else Arrived(slot, code))
    case Get(w, ok) =>
      var p := s.callbacks[w];
      Move(s, w, if ok && p.slot in s.pkce then Got(p.slot, p.code, s.pkce[p.slot]) else Ended(false))
    case Delete(w, ok) =>
      var p := s.callbacks[w];
      Move(s, w, Exchanging(p.slot, p.code, p.pkce)).(pkce := if ok then s.pkce - {p.slot} else s.pkce)
    case Exchange(w, ok) =>
      var p := s.callbacks[w];
      Move(s, w, if ok && Exchanges(env, s, p) then
                   Validating(p.slot, p.code, p.pkce, s.codes[p.code].client, s.codes[p.code].nonce)
                 else Ended(false))
    case Validate(w) =>
      var p := s.callbacks[w];
      Move(s, w, if Validates(env, p) then Storing(p.slot, p.code, p.pkce) else Ended(false))
    case Store(w, ok) =>
      var p := s.callbacks[w];
      if ok then Move(s, w, Ended(true)).(sessions := s.sessions + [Session(p.slot, p.code, p.pkce, |s.attempts|)])
      else Move(s, w, Ended(false))
  }

  predicate Init(s: State) {
    s.pkce == map[] && s.callbacks == map[] && s.attempts == [] && s.sessions == []
  }

  // ---------------------------------------------------------------- every session has its attempt

  ghost predicate Known(s: State, slot: Slot, pkce: Pkce) {
    Attempt(slot, pkce) in s.attempts && pkce.nonce != ""
  }

  predicate HasRecord(p: Callback) {
    p.Got? || p.Exchanging? || p.Validating? || p.Storing?
  }

  /** The code was issued for a request of this connector's audience with this attempt's challenge and nonce. */
  predicate Bound(env: Env, s: State, slot: Slot, code: string, pkce: Pkce) {
    && code in s.codes && s.codes[code].challenge == env.hash(pkce.verifier) && s.codes[code].nonce == pkce.nonce
    && (env.audience(slot.connector) != "" ==> s.codes[code].client == env.audience(slot.connector))
  }

  ghost predicate CallbackInv(env: Env, s: State, p: Callback) {
    && (p.Arrived? || HasRecord(p) ==> p.slot.state != "" && p.code != "")
    && (HasRecord(p) ==> Known(s, p.slot, p.pkce))
    && (p.Validating? ==> p.code in s.codes && s.codes[p.code] == Grant(p.aud, env.hash(p.pkce.verifier), p.nonce))
    && (p.Storing? ==> Bound(env, s, p.slot, p.code, p.pkce))
  }

  ghost predicate TraceInv(env: Env, s: State) {
    && (forall slot :: slot in s.pkce ==> Known(s, slot, s.pkce[slot]))
    && (forall w :: w in s.callbacks ==> CallbackInv(env, s, s.callbacks[w]))
    && (forall i :: 0 <= i < |s.sessions| ==> SessionTraced(env, s, s.sessions[i]))
    && (forall i, j :: 0 <= i < j < |s.attempts| ==> s.attempts[i].slot.state != s.attempts[j].slot.state)
  }

  ghost predicate SessionTraced(env: Env, s: State, x: Session) {
    && x.started <= |s.attempts| && Attempt(x.slot, x.pkce) in s.attempts[..x.started]
    && Bound(env, s, x.slot, x.code, x.pkce)
  }

  /** Records once known stay known, and codes once issued stay bound. */
  lemma SessionsStayTraced(env: Env, s: State, t: State)
    requires s.attempts <= t.attempts
    requires forall code :: code in s.codes ==> code in t.codes && t.codes[code] == s.codes[code]
    requires forall i :: 0 <= i < |s.sessions| ==> SessionTraced(env, s, s.sessions[i])
    ensures forall i :: 0 <= i < |s.sessions| ==> SessionTraced(env, t, s.sessions[i])
    ensures forall p: Callback :: CallbackInv(env, s, p) ==> CallbackInv(env, t, p)
    ensures forall slot, pkce :: Known(s, slot, pkce) ==> Known(t, slot, pkce)
  {
    forall i | 0 <= i < |s.sessions| ensures SessionTraced(env, t, s.sessions[i]) {
      assert SessionTraced(env, s, s.sessions[i]);
      assert t.attempts[..s.sessions[i].started] == s.attempts[..s.sessions[i].started];
    }
  }

  lemma StoredIsTraced(env: Env, s: State, w: nat)
    requires TraceInv(env, s) && w in s.callbacks && s.callbacks[w].Storing?
    ensures var p := s.callbacks[w]; SessionTraced(env, s, Session(p.slot, p.code, p.pkce, |s.attempts|))
  {
    assert CallbackInv(env, s, s.callbacks[w]);
    assert s.attempts[..|s.attempts|] == s.attempts;
  }

  lemma MoveKeepsTrace(env: Env, s: State, t: State, w: nat, p: Callback)
    requires TraceInv(env, s) && CallbackInv(env, s, p)
    requires t.callbacks == s.callbacks[w := p] && t.attempts == s.attempts && t.codes == s.codes
    requires t.pkce.Keys <= s.pkce.Keys && forall slot :: slot in t.pkce ==> t.pkce[slot] == s.pkce[slot]
    requires s.sessions <= t.sessions
    requires forall i :: |s.sessions| <= i < |t.sessions| ==> SessionTraced(env, s, t.sessions[i])
    ensures TraceInv(env, t)
  {
    SessionsStayTraced(env, s, t);
    assert forall x :: SessionTraced(env, s, x) ==> SessionTraced(env, t, x);
    assert forall v :: v in s.callbacks ==> CallbackInv(env, s, s.callbacks[v]);
  }

  /** A step outside the callbacks: a login begins, a code is issued, a record expires. */
  lemma WorldKeepsTrace(env: Env, s: State, a: Action)
    requires TraceInv(env, s) && Enabled(s, a) && (a.LoginStart? || a.Authorize? || a.Forget?)
    ensures TraceInv(env, Apply(env, s, a))
  {
    SessionsStayTraced(env, s, Apply(env, s, a));
  }

  lemma StepKeepsTrace(env: Env, s: State, a: Action)
    requires TraceInv(env, s) && Enabled(s, a)
    ensures TraceInv(env, Apply(env, s, a))
  {
    if a.LoginStart? || a.Authorize? || a.Forget? {
      WorldKeepsTrace(env, s, a);
    } else {
      var t := Apply(env, s, a);
      assert a.w in s.callbacks ==> CallbackInv(env, s, s.callbacks[a.w]);
      if a.Store? {
        StoredIsTraced(env, s, a.w);
      }
      MoveKeepsTrace(env, s, t, a.w, t.callbacks[a.w]);
    }
  }

  type Policy = (State, Action) -> bool

  ghost predicate Next(env: Env, s: State, t: State, allowed: Policy) {
    exists a :: allowed(s, a) && Enabled(s, a) && t == Apply(env, s, a)
  }

  ghost function Steps(env: Env, allowed: Policy): (State, State) -> bool {
    (s, t) => Next(env, s, t, allowed)
  }

  ghost predicate Run(env: Env, tr: seq<State>, allowed: Policy) {
    Chain(Steps(env, allowed), tr) && Init(tr[0])
  }

  lemma {:induction false} RunKeepsTrace(env: Env, tr: seq<State>, allowed: Policy, n: nat)
    requires Run(env, tr, allowed) && n < |tr|
    ensures TraceInv(env, tr[n])
  {
    if n > 0 {
      RunKeepsTrace(env, tr, allowed, n - 1);
      StepInto(Steps(env, allowed), tr, n);
      var a :| allowed(tr[n - 1], a) && Enabled(tr[n - 1], a) && tr[n] == Apply(env, tr[n - 1], a);
      StepKeepsTrace(env, tr[n - 1], a);
    }
  }

  /**
   In every run, however callbacks interleave and whatever fails: a session traces to exactly one
   LoginStart, begun earlier on the same connector, and its code was issued for a request with
   that attempt's challenge and nonce.
   */
  lemma SessionTracesToOneAttempt(env: Env, tr: seq<State>, allowed: Policy, n: nat, i: nat)
    returns (k: nat)
    requires Run(env, tr, allowed) && n < |tr| && i < |tr[n].sessions|
    ensures var x := tr[n].sessions[i];
            && k < x.started <= |tr[n].attempts| && tr[n].attempts[k] == Attempt(x.slot, x.pkce)
            && (forall m :: 0 <= m < |tr[n].attempts| && tr[n].attempts[m].slot.state == x.slot.state ==> m == k)
            && Bound(env, tr[n], x.slot, x.code, x.pkce)
  {
    RunKeepsTrace(env, tr, allowed, n);
    var x := tr[n].sessions[i];
    assert SessionTraced(env, tr[n], x);
    k :| 0 <= k < x.started && tr[n].attempts[..x.started][k] == Attempt(x.slot, x.pkce);
  }

  // ---------------------------------------------------------------- one session per state

  predicate Reads(s: State, w: nat, slot: Slot) {
    w in s.callbacks && s.callbacks[w].Got? && s.callbacks[w].slot == slot
  }

  /** Can still end in a session: the code belongs to this attempt, or is not issued yet. */
  predicate Live(env: Env, s: State, slot: Slot, code: string, pkce: Pkce) {
    code !in s.codes || Bound(env, s, slot, code, pkce)
  }

  /** A live callback that has read the record of the slot and not yet created its session. */
  predicate Holds(env: Env, s: State, w: nat, slot: Slot) {
    && w in s.callbacks && HasRecord(s.callbacks[w]) && s.callbacks[w].slot == slot
    && Live(env, s, slot, s.callbacks[w].code, s.callbacks[w].pkce)
  }

  /**
   Leaving the record of a live callback in the store, or reading for a live callback a record that
   another live callback has read and not yet deleted.
   */
  ghost predicate Opens(env: Env, s: State, a: Action) {
    match a
    case Delete(w, ok) =>
      !ok && At(s, w, (p: Callback) => p.Got?) && s.callbacks[w].slot in s.pkce && Holds(env, s, w, s.callbacks[w].slot)
    case Get(w, ok) =>
      && ok && At(s, w, (p: Callback) => p.Arrived?) && s.callbacks[w].slot in s.pkce
      && Live(env, s, s.callbacks[w].slot, s.callbacks[w].code, s.pkce[s.callbacks[w].slot])
      && exists v :: Reads(s, v, s.callbacks[w].slot) && Holds(env, s, v, s.callbacks[w].slot)
    case _ => false
  }

  ghost function Careful(env: Env): Policy {
    (s, a) => !Opens(env, s, a)
  }

  ghost predicate HeldOnce(env: Env, s: State) {
    forall w, v, slot :: Holds(env, s, w, slot) && Holds(env, s, v, slot) ==> w == v
  }

  /** A record is in the store, or with one live callback, or spent on one session. */
  ghost predicate OnceInv(env: Env, s: State) {
    && HeldOnce(env, s)
    && (forall w, slot :: Holds(env, s, w, slot) && !s.callbacks[w].Got? ==> slot !in s.pkce)
    && (forall w, i :: 0 <= i < |s.sessions| ==> !Holds(env, s, w, s.sessions[i].slot))
    && (forall i :: 0 <= i < |s.sessions| ==> s.sessions[i].slot !in s.pkce)
    && (forall i, j :: 0 <= i < j < |s.sessions| ==> s.sessions[i].slot != s.sessions[j].slot)
  }

  lemma StepKeepsOnce(env: Env, s: State, a: Action)
    requires TraceInv(env, s) && OnceInv(env, s) && Enabled(s, a) && !Opens(env, s, a)
    ensures OnceInv(env, Apply(env, s, a))
  {
    match a
    case LoginStart(slot, pkce) => StartKeepsOnce(env, s, slot, pkce);
    case Authorize(_, _) => SameRecords(env, s, Apply(env, s, a));
    case Forget(slot) => SameRecords(env, s, Apply(env, s, a));
    case Get(w, ok) => GetKeepsOnce(env, s, w, ok);
    case Delete(w, ok) => DeleteKeepsOnce(env, s, w, ok);
    case Store(w, ok) => StoreKeepsOnce(env, s, w, ok);
    case Call(w, _, _, _) => SameRecords(env, s, Apply(env, s, a));
    case Exchange(w, _) => SameRecords(env, s, Apply(env, s, a));
    case Validate(w) => SameRecords(env, s, Apply(env, s, a));
  }

  /** Steps that create no record, no session and no live holder. */
  lemma SameRecords(env: Env, s: State, t: State)
    requires OnceInv(env, s) && t.sessions == s.sessions && t.pkce.Keys <= s.pkce.Keys
    requires forall w, slot :: Holds(env, t, w, slot) ==>
               Holds(env, s, w, slot) && t.callbacks[w].Got? == s.callbacks[w].Got?
    ensures OnceInv(env, t)
  {
  }

  lemma StartKeepsOnce(env: Env, s: State, slot: Slot, pkce: Pkce)
    requires TraceInv(env, s) && OnceInv(env, s) && Enabled(s, LoginStart(slot, pkce))
    ensures OnceInv(env, Apply(env, s, LoginStart(slot, pkce)))
  {
    var t := Apply(env, s, LoginStart(slot, pkce));
    forall w, x | Holds(env, s, w, x) ensures x != slot {
      assert CallbackInv(env, s, s.callbacks[w]);
    }
    forall i | 0 <= i < |s.sessions| ensures s.sessions[i].slot != slot {
      assert SessionTraced(env, s, s.sessions[i]);
    }
    assert forall w, x :: Holds(env, t, w, x) ==> Holds(env, s, w, x);
    assert forall w, i :: 0 <= i < |s.sessions| ==> !Holds(env, t, w, s.sessions[i].slot);
  }

  lemma GetKeepsOnce(env: Env, s: State, w: nat, ok: bool)
    requires OnceInv(env, s) && Enabled(s, Get(w, ok)) && !Opens(env, s, Get(w, ok))
    ensures OnceInv(env, Apply(env, s, Get(w, ok)))
  {
    var t := Apply(env, s, Get(w, ok));
    var slot := s.callbacks[w].slot;
    forall v, x | Holds(env, t, v, x)
      ensures if v == w then x == slot && x in s.pkce else Holds(env, s, v, x)
    {
    }
    forall v | v != w && Holds(env, t, w, slot) ensures !Holds(env, t, v, slot) {
      assert Holds(env, s, v, slot) ==> !Reads(s, v, slot);
    }
  }

  lemma DeleteKeepsOnce(env: Env, s: State, w: nat, ok: bool)
    requires OnceInv(env, s) && Enabled(s, Delete(w, ok)) && !Opens(env, s, Delete(w, ok))
    ensures OnceInv(env, Apply(env, s, Delete(w, ok)))
  {
    var t := Apply(env, s, Delete(w, ok));
    assert forall v, x :: Holds(env, t, v, x) <==> Holds(env, s, v, x);
  }

  lemma StoreKeepsOnce(env: Env, s: State, w: nat, ok: bool)
    requires TraceInv(env, s) && OnceInv(env, s) && Enabled(s, Store(w, ok))
    ensures OnceInv(env, Apply(env, s, Store(w, ok)))
  {
    var t := Apply(env, s, Store(w, ok));
    var slot := s.callbacks[w].slot;
    assert CallbackInv(env, s, s.callbacks[w]);
    assert Holds(env, s, w, slot);
    assert forall v, x :: Holds(env, t, v, x) ==> Holds(env, s, v, x) && v != w;
    assert forall v :: !Holds(env, t, v, slot);
    assert forall i :: 0 <= i < |s.sessions| ==> t.sessions[i] == s.sessions[i];
  }

  lemma NextKeepsOnce(env: Env, s: State, t: State)
    requires TraceInv(env, s) && OnceInv(env, s) && Next(env, s, t, Careful(env))
    ensures OnceInv(env, t)
  {
    var a :| Careful(env)(s, a) && Enabled(s, a) && t == Apply(env, s, a);
    StepKeepsOnce(env, s, a);
  }

  lemma {:induction false} RunKeepsOnce(env: Env, tr: seq<State>, n: nat)
    requires Run(env, tr, Careful(env)) && n < |tr|
    ensures OnceInv(env, tr[n])
  {
    if n > 0 {
      RunKeepsOnce(env, tr, n - 1);
      RunKeepsTrace(env, tr, Careful(env), n - 1);
      StepInto(Steps(env, Careful(env)), tr, n);
      NextKeepsOnce(env, tr[n - 1], tr[n]);
    }
  }

  ghost predicate OneSessionEach(s: State) {
    forall i, j :: 0 <= i < j < |s.sessions| ==> s.sessions[i].slot.state != s.sessions[j].slot.state
  }

  /** In a careful run no state creates two sessions, on one connector or across connectors. */
  lemma StateCreatesOneSession(env: Env, tr: seq<State>, n: nat)
    requires Run(env, tr, Careful(env)) && n < |tr|
    ensures OneSessionEach(tr[n])
  {
    RunKeepsOnce(env, tr, n);
    forall i, j | 0 <= i < j < |tr[n].sessions| ensures tr[n].sessions[i].slot.state != tr[n].sessions[j].slot.state {
      var k := SessionTracesToOneAttempt(env, tr, Careful(env), n, i);
      var m := SessionTracesToOneAttempt(env, tr, Careful(env), n, j);
    }
  }

  predicate DeletesSucceed(s: State, a: Action) {
    a.Delete? ==> a.ok
  }

  /** No callback reads a record another callback has read and is about to delete. */
  ghost predicate NoOverlap(s: State, a: Action) {
    a.Get? && At(s, a.w, (p: Callback) => p.Arrived?) ==> forall v :: !Reads(s, v, s.callbacks[a.w].slot)
  }

  ghost predicate Orderly(s: State, a: Action) {
    DeletesSucceed(s, a) && NoOverlap(s, a)
  }

  /** In particular if all deletes succeed and callbacks for one state do not overlap. */
  lemma OrderlyIsCareful(env: Env, tr: seq<State>)
    requires Run(env, tr, Orderly)
    ensures Run(env, tr, Careful(env))
  {
    forall s, t | Steps(env, Orderly)(s, t) ensures Steps(env, Careful(env))(s, t) {
      var a :| Orderly(s, a) && Enabled(s, a) && t == Apply(env, s, a);
      assert Careful(env)(s, a);
    }
    Relax(Steps(env, Orderly), Steps(env, Careful(env)), tr);
  }

  // ---------------------------------------------------------------- paths

  ghost predicate Path(env: Env, tr: seq<State>, allowed: Policy) {
    Chain(Steps(env, allowed), tr)
  }

  lemma Follow(env: Env, allowed: Policy, tr: seq<State>, a: Action) returns (longer: seq<State>)
    requires Path(env, tr, allowed) && Enabled(Last(tr), a) && allowed(Last(tr), a)
    ensures Path(env, longer, allowed) && longer[0] == tr[0] && Last(longer) == Apply(env, Last(tr), a)
  {
    var t := Apply(env, Last(tr), a);
    assert Next(env, Last(tr), t, allowed);
    longer := tr + [t];
    Extend(Steps(env, allowed), tr, t);
  }

  function AfterSession(s: State, w: nat, slot: Slot, code: string, pkce: Pkce): State {
    Move(s, w, Ended(true)).(sessions := s.sessions + [Session(slot, code, pkce, |s.attempts|)])
  }

  /** The last three steps of a callback with a bound code. */
  lemma Conclude(env: Env, allowed: Policy, tr: seq<State>, w: nat, slot: Slot, code: string, pkce: Pkce)
    returns (longer: seq<State>)
    requires Path(env, tr, allowed)
    requires w in Last(tr).callbacks && Last(tr).callbacks[w] == Exchanging(slot, code, pkce)
    requires Bound(env, Last(tr), slot, code, pkce)
    requires forall t: State, a: Action :: a.Exchange? || a.Validate? || a.Store? ==> allowed(t, a)
    ensures Path(env, longer, allowed) && longer[0] == tr[0]
    ensures Last(longer) == AfterSession(Last(tr), w, slot, code, pkce)
  {
    longer := Follow(env, allowed, tr, Exchange(w, true));
    longer := Follow(env, allowed, longer, Validate(w));
    longer := Follow(env, allowed, longer, Store(w, true));
  }

  /** The four remaining steps of a callback that has read its record. */
  lemma Complete(env: Env, allowed: Policy, tr: seq<State>, w: nat, slot: Slot, code: string, pkce: Pkce, deleted: bool)
    returns (longer: seq<State>)
    requires Path(env, tr, allowed)
    requires w in Last(tr).callbacks && Last(tr).callbacks[w] == Got(slot, code, pkce)
    requires Bound(env, Last(tr), slot, code, pkce)
    requires forall t: State, a: Action ::
               a.Exchange? || a.Validate? || a.Store? || a == Delete(w, deleted) ==> allowed(t, a)
    ensures Path(env, longer, allowed) && longer[0] == tr[0]
    ensures var s := Last(tr);
            Last(longer) == AfterSession(s.(pkce := if deleted then s.pkce - {slot} else s.pkce), w, slot, code, pkce)
  {
    longer := Follow(env, allowed, tr, Delete(w, deleted));
    longer := Conclude(env, allowed, longer, w, slot, code, pkce);
  }

  /** A callback arrives and reads its record. */
  lemma Arrive(env: Env, allowed: Policy, tr: seq<State>, w: nat, slot: Slot, code: string) returns (longer: seq<State>)
    requires Path(env, tr, allowed) && slot.state != "" && code != "" && slot in Last(tr).pkce
    requires w in Last(tr).callbacks ==> Last(tr).callbacks[w].Ended?
    requires forall t: State, a: Action :: a.Call? ==> allowed(t, a)
    requires allowed(Move(Last(tr), w, Arrived(slot, code)), Get(w, true))
    ensures Path(env, longer, allowed) && longer[0] == tr[0]
    ensures Last(longer) == Move(Last(tr), w, Got(slot, code, Last(tr).pkce[slot]))
  {
    longer := Follow(env, allowed, tr, Call(w, slot, code, ""));
    longer := Follow(env, allowed, longer, Get(w, true));
  }

  function Matching(env: Env, slot: Slot, pkce: Pkce): Grant {
    Grant(env.audience(slot.connector), env.hash(pkce.verifier), pkce.nonce)
  }

  // ---------------------------------------------------------------- careful is exact

  /** A live code can be made the attempt's own, and no other code changes. */
  lemma Issue(env: Env, tr: seq<State>, slot: Slot, code: string, pkce: Pkce) returns (longer: seq<State>)
    requires Path(env, tr, Careful(env)) && Live(env, Last(tr), slot, code, pkce)
    ensures Path(env, longer, Careful(env)) && longer[0] == tr[0] && Bound(env, Last(longer), slot, code, pkce)
    ensures Last(longer) == Last(tr).(codes := Last(longer).codes) && Later(Last(tr), Last(longer))
    ensures Last(longer).codes.Keys <= Last(tr).codes.Keys + {code}
  {
    longer := tr;
    if code !in Last(tr).codes {
      longer := Follow(env, Careful(env), tr, Authorize(code, Matching(env, slot, pkce)));
    }
  }

  /** Codes once issued keep their grant. */
  predicate Later(s: State, t: State) {
    forall code :: code in s.codes ==> code in t.codes && t.codes[code] == s.codes[code]
  }

  /** Two records of one state are the same record. */
  lemma SameRecord(env: Env, s: State, slot: Slot, p: Pkce, q: Pkce)
    requires TraceInv(env, s) && Known(s, slot, p) && Known(s, slot, q)
    ensures p == q
  {
    var i :| 0 <= i < |s.attempts| && s.attempts[i] == Attempt(slot, p);
    var j :| 0 <= j < |s.attempts| && s.attempts[j] == Attempt(slot, q);
    assert i == j;
  }

  lemma TwoOfAState(s: State, n: nat, slot: Slot)
    requires n + 1 < |s.sessions| && s.sessions[n].slot == slot && s.sessions[n + 1].slot == slot
    ensures !OneSessionEach(s)
  {
  }

  /** Both readers go on to create a session. */
  lemma ReadOpens(env: Env, s: State, w: nat, v: nat) returns (path: seq<State>)
    requires TraceInv(env, s) && Enabled(s, Get(w, true)) && s.callbacks[w].slot in s.pkce
    requires var p := s.callbacks[w]; Live(env, s, p.slot, p.code, s.pkce[p.slot])
    requires Reads(s, v, s.callbacks[w].slot) && Holds(env, s, v, s.callbacks[w].slot)
    ensures Path(env, path, Careful(env)) && path[0] == Apply(env, s, Get(w, true)) && !OneSessionEach(Last(path))
  {
    var slot, code, other := s.callbacks[w].slot, s.callbacks[w].code, s.callbacks[v].code;
    var pkce := s.pkce[slot];
    assert CallbackInv(env, s, s.callbacks[v]);
    SameRecord(env, s, slot, pkce, s.callbacks[v].pkce);
    path := [Apply(env, s, Get(w, true))];
    path := Issue(env, path, slot, code, pkce);
    path := Issue(env, path, slot, other, pkce);
    path := Complete(env, Careful(env), path, w, slot, code, pkce, true);
    path := Complete(env, Careful(env), path, v, slot, other, pkce, true);
    TwoOfAState(Last(path), |s.sessions|, slot);
  }

  /** The callback creates its session, and a later one finds the record again. */
  lemma DeleteOpens(env: Env, s: State, w: nat) returns (path: seq<State>)
    requires TraceInv(env, s) && OnceInv(env, s) && Enabled(s, Delete(w, false))
    requires s.callbacks[w].slot in s.pkce && Holds(env, s, w, s.callbacks[w].slot)
    ensures Path(env, path, Careful(env)) && path[0] == Apply(env, s, Delete(w, false)) && !OneSessionEach(Last(path))
  {
    var slot, code, pkce := s.callbacks[w].slot, s.callbacks[w].code, s.callbacks[w].pkce;
    assert CallbackInv(env, s, s.callbacks[w]);
    SameRecord(env, s, slot, pkce, s.pkce[slot]);
    path := [Apply(env, s, Delete(w, false))];
    path := Issue(env, path, slot, code, pkce);
    path := Conclude(env, Careful(env), path, w, slot, code, pkce);
    NoOtherReader(env, s, Move(Last(path), w, Arrived(slot, code)), w, slot);
    path := Arrive(env, Careful(env), path, w, slot, code);
    path := Complete(env, Careful(env), path, w, slot, code, pkce, true);
    TwoOfAState(Last(path), |s.sessions|, slot);
  }

  /** While w held the record nobody else did, and waiting does not bring a dead callback to life. */
  lemma NoOtherReader(env: Env, s: State, t: State, w: nat, slot: Slot)
    requires HeldOnce(env, s) && Holds(env, s, w, slot) && Later(s, t)
    requires w in t.callbacks && t.callbacks == s.callbacks[w := t.callbacks[w]] && t.callbacks[w].Arrived?
    ensures forall v :: !Holds(env, t, v, slot)
  {
    forall v ensures !Holds(env, t, v, slot) {
      assert v != w && Holds(env, t, v, slot) ==> Holds(env, s, v, slot);
    }
  }

  ghost predicate LeadsToTwo(env: Env, s: State) {
    exists path :: Path(env, path, Careful(env)) && path[0] == s && !OneSessionEach(Last(path))
  }

  /**
   Wherever a careful run has got to: a step leaves the way open to two sessions of one state, with
   careful steps only from there on, if and only if it is one of those that being careful excludes.
   */
  lemma OpeningIsExact(env: Env, tr: seq<State>, a: Action)
    requires Run(env, tr, Careful(env)) && Enabled(Last(tr), a)
    ensures LeadsToTwo(env, Apply(env, Last(tr), a)) <==> Opens(env, Last(tr), a)
  {
    var s := Last(tr);
    RunKeepsTrace(env, tr, Careful(env), |tr| - 1);
    RunKeepsOnce(env, tr, |tr| - 1);
    if Opens(env, s, a) {
      var path: seq<State>;
      if a.Delete? {
        path := DeleteOpens(env, s, a.w);
      } else {
        var v :| Reads(s, v, s.callbacks[a.w].slot) && Holds(env, s, v, s.callbacks[a.w].slot);
        path := ReadOpens(env, s, a.w, v);
      }
      assert path[0] == Apply(env, s, a);
    } else {
      forall path | Path(env, path, Careful(env)) && path[0] == Apply(env, s, a) ensures OneSessionEach(Last(path)) {
        CarefulGoesOn(env, tr, a, path);
      }
    }
  }

  lemma CarefulGoesOn(env: Env, tr: seq<State>, a: Action, path: seq<State>)
    requires Run(env, tr, Careful(env)) && Enabled(Last(tr), a) && !Opens(env, Last(tr), a)
    requires Path(env, path, Careful(env)) && path[0] == Apply(env, Last(tr), a)
    ensures OneSessionEach(Last(path))
  {
    assert Careful(env)(Last(tr), a);
    assert Next(env, Last(tr), path[0], Careful(env));
    Join(Steps(env, Careful(env)), tr, path);
    StateCreatesOneSession(env, tr + path, |tr + path| - 1);
  }

  // ---------------------------------------------------------------- two runs from the start

  /** A start at which nothing has happened and two codes are still unissued. */
  predicate Fresh(s: State, slot: Slot, pkce: Pkce, c1: string, c2: string) {
    && Init(s) && slot.state != "" && pkce.nonce != ""
    && c1 != "" && c2 != "" && c1 != c2 && c1 !in s.codes && c2 !in s.codes
  }

  function Begun(env: Env, s: State, slot: Slot, pkce: Pkce, c1: string, c2: string): State {
    var grant := Matching(env, slot, pkce);
    State(map[slot := pkce], s.codes[c1 := grant][c2 := grant], map[], [Attempt(slot, pkce)], [])
  }

  /** One login is begun, and its request authorized twice. */
  lemma Begin(env: Env, allowed: Policy, s: State, slot: Slot, pkce: Pkce, c1: string, c2: string)
    returns (tr: seq<State>)
    requires Fresh(s, slot, pkce, c1, c2)
    requires forall t: State, a: Action :: a.LoginStart? || a.Authorize? ==> allowed(t, a)
    ensures Path(env, tr, allowed) && tr[0] == s && Last(tr) == Begun(env, s, slot, pkce, c1, c2)
  {
    tr := Follow(env, allowed, [s], LoginStart(slot, pkce));
    tr := Follow(env, allowed, tr, Authorize(c1, Matching(env, slot, pkce)));
    tr := Follow(env, allowed, tr, Authorize(c2, Matching(env, slot, pkce)));
  }

  /**
   Two callbacks that both read the record before either deleted it both create a session, with
   every delete succeeding.
   */
  lemma OverlapCreatesTwoSessions(env: Env, s: State, slot: Slot, pkce: Pkce, c1: string, c2: string)
    returns (tr: seq<State>)
    requires Fresh(s, slot, pkce, c1, c2)
    ensures Run(env, tr, DeletesSucceed) && tr[0] == s
    ensures Last(tr).sessions == [Session(slot, c1, pkce, 1), Session(slot, c2, pkce, 1)]
  {
    tr := Begin(env, DeletesSucceed, s, slot, pkce, c1, c2);
    tr := Arrive(env, DeletesSucceed, tr, 0, slot, c1);
    tr := Arrive(env, DeletesSucceed, tr, 1, slot, c2);
    tr := Complete(env, DeletesSucceed, tr, 0, slot, c1, pkce, true);
    tr := Complete(env, DeletesSucceed, tr, 1, slot, c2, pkce, true);
  }

  /** Two callbacks one after the other both create a session if the first one's delete failed. */
  lemma FailedDeleteCreatesTwoSessions(env: Env, s: State, slot: Slot, pkce: Pkce, c1: string, c2: string)
    returns (tr: seq<State>)
    requires Fresh(s, slot, pkce, c1, c2)
    ensures Run(env, tr, NoOverlap) && tr[0] == s
    ensures Last(tr).sessions == [Session(slot, c1, pkce, 1), Session(slot, c2, pkce, 1)]
  {
    tr := Begin(env, NoOverlap, s, slot, pkce, c1, c2);
    tr := Arrive(env, NoOverlap, tr, 0, slot, c1);
    tr := Complete(env, NoOverlap, tr, 0, slot, c1, pkce, false);
    tr := Arrive(env, NoOverlap, tr, 0, slot, c2);
    tr := Complete(env, NoOverlap, tr, 0, slot, c2, pkce, true);
  }
}
