/**
 What makes a login succeed: whole LoginEnd calls for every luck with the stores and the IdP, and
 the steps every session on any run goes back to.
 */
module LoginCalls {
  import opened Login
  import opened Traces

  // ---------------------------------------------------------------- a call that nobody disturbs

  /** How the outside calls of one LoginEnd turn out. */
  datatype Luck = Luck(get: bool, delete: bool, exchange: bool, store: bool)

  function Turn(w: nat, p: Callback, l: Luck): Action
    requires !p.Ended?
  {
    match p
    case Arrived(_, _) => Get(w, l.get)
    case Got(_, _, _) => Delete(w, l.delete)
    case Exchanging(_, _, _) => Exchange(w, l.exchange)
    case Validating(_, _, _, _, _) => Validate(w)
    case Storing(_, _, _) => Store(w, l.store)
  }

  function StepsLeft(p: Callback): nat {
    match p
    case Arrived(_, _) => 5
    case Got(_, _, _) => 4
    case Exchanging(_, _, _) => 3
    case Validating(_, _, _, _, _) => 2
    case Storing(_, _, _) => 1
    case Ended(_) => 0
  }

  /** The rest of the call. */
  function Alone(env: Env, s: State, w: nat, l: Luck): State
    requires w in s.callbacks
    decreases StepsLeft(s.callbacks[w])
  {
    if s.callbacks[w].Ended? then s else Alone(env, Apply(env, s, Turn(w, s.callbacks[w], l)), w, l)
  }

  /** Everything LoginEnd asks for. */
  predicate Succeeds(env: Env, s: State, slot: Slot, code: string, error: string, l: Luck) {
    && error == "" && slot.state != "" && code != ""
    && l.get && slot in s.pkce
    && l.exchange && code in s.codes && s.codes[code].challenge == env.hash(s.pkce[slot].verifier)
    && (env.audience(slot.connector) == "" || s.codes[code].client == env.audience(slot.connector))
    && (s.pkce[slot].nonce == "" || s.codes[code].nonce == s.pkce[slot].nonce)
    && l.store
  }

  /** The record is read, so it is deleted, whatever becomes of the login. */
  predicate Spends(s: State, slot: Slot, code: string, error: string, l: Luck) {
    error == "" && slot.state != "" && code != "" && l.get && slot in s.pkce && l.delete
  }

  /** One session exactly if everything succeeded, and the record gone if it was read and the delete worked. */
  lemma LoginEndCall(env: Env, s: State, w: nat, slot: Slot, code: string, error: string, l: Luck)
    requires Enabled(s, Call(w, slot, code, error))
    ensures var t := Alone(env, Apply(env, s, Call(w, slot, code, error)), w, l);
            var done := Succeeds(env, s, slot, code, error, l);
            && w in t.callbacks && t.callbacks[w] == Ended(done)
            && t.sessions == s.sessions + (if done then [Session(slot, code, s.pkce[slot], |s.attempts|)] else [])
            && t.pkce == (if Spends(s, slot, code, error, l) then s.pkce - {slot} else s.pkce)
            && t.codes == s.codes && t.attempts == s.attempts
  {
    var t := Apply(env, s, Call(w, slot, code, error));
    if error == "" && slot.state != "" && code != "" {
      ArrivedCall(env, t, w, slot, code, l);
    }
  }

  lemma ArrivedCall(env: Env, s: State, w: nat, slot: Slot, code: string, l: Luck)
    requires w in s.callbacks && s.callbacks[w] == Arrived(slot, code) && slot.state != "" && code != ""
    ensures var t := Alone(env, s, w, l);
            var done := Succeeds(env, s, slot, code, "", l);
            && w in t.callbacks && t.callbacks[w] == Ended(done)
            && t.sessions == s.sessions + (if done then [Session(slot, code, s.pkce[slot], |s.attempts|)] else [])
            && t.pkce == (if Spends(s, slot, code, "", l) then s.pkce - {slot} else s.pkce)
            && t.codes == s.codes && t.attempts == s.attempts
  {
    var t := Apply(env, s, Get(w, l.get));
    assert Alone(env, s, w, l) == Alone(env, t, w, l);
    if l.get && slot in s.pkce {
      var u := Apply(env, t, Delete(w, l.delete));
      assert Alone(env, t, w, l) == Alone(env, u, w, l);
      ExchangingCall(env, u, w, slot, code, s.pkce[slot], l);
    }
  }

  lemma ExchangingCall(env: Env, s: State, w: nat, slot: Slot, code: string, pkce: Pkce, l: Luck)
    requires w in s.callbacks && s.callbacks[w] == Exchanging(slot, code, pkce)
    ensures var t := Alone(env, s, w, l);
            var done := && l.exchange && code in s.codes && s.codes[code].challenge == env.hash(pkce.verifier)
                        && (env.audience(slot.connector) == "" || s.codes[code].client == env.audience(slot.connector))
                        && (pkce.nonce == "" || s.codes[code].nonce == pkce.nonce)
                        && l.store;
            && w in t.callbacks && t.callbacks[w] == Ended(done)
            && t.sessions == s.sessions + (if done then [Session(slot, code, pkce, |s.attempts|)] else [])
            && t.pkce == s.pkce && t.codes == s.codes && t.attempts == s.attempts
  {
    var t := Apply(env, s, Exchange(w, l.exchange));
    assert Alone(env, s, w, l) == Alone(env, t, w, l);
    if t.callbacks[w].Validating? {
      var u := Apply(env, t, Validate(w));
      assert Alone(env, t, w, l) == Alone(env, u, w, l);
      if u.callbacks[w].Storing? {
        var v := Apply(env, u, Store(w, l.store));
        assert Alone(env, u, w, l) == Alone(env, v, w, l) == v;
      }
    }
  }

  /** Beginning a login stores its record under the connector and the state, and nothing else changes. */
  lemma LoginStartCall(env: Env, s: State, slot: Slot, pkce: Pkce)
    requires Enabled(s, LoginStart(slot, pkce))
    ensures var t := Apply(env, s, LoginStart(slot, pkce));
            && slot in t.pkce && t.pkce[slot] == pkce && t.pkce - {slot} == s.pkce - {slot}
            && t.attempts == s.attempts + [Attempt(slot, pkce)]
            && t.codes == s.codes && t.callbacks == s.callbacks && t.sessions == s.sessions
  {
  }

  // ---------------------------------------------------------------- where a session comes from

  ghost predicate By(env: Env, tr: seq<State>, m: nat, a: Action) {
    m + 1 < |tr| && Enabled(tr[m], a) && tr[m + 1] == Apply(env, tr[m], a)
  }

  ghost predicate Was(tr: seq<State>, m: nat, w: nat, p: Callback) {
    m < |tr| && w in tr[m].callbacks && tr[m].callbacks[w] == p
  }

  /** The step at m brought the callback of w into p, and it succeeded. */
  ghost predicate Entered(env: Env, tr: seq<State>, m: nat, w: nat, p: Callback) {
    match p
    case Arrived(slot, code) => slot.state != "" && code != "" && By(env, tr, m, Call(w, slot, code, ""))
    case Got(slot, code, pkce) =>
      && By(env, tr, m, Get(w, true)) && Was(tr, m, w, Arrived(slot, code))
      && slot in tr[m].pkce && tr[m].pkce[slot] == pkce
    case Exchanging(slot, code, pkce) =>
      && (By(env, tr, m, Delete(w, true)) || By(env, tr, m, Delete(w, false)))
      && Was(tr, m, w, Got(slot, code, pkce))
    case Validating(slot, code, pkce, aud, nonce) =>
      && By(env, tr, m, Exchange(w, true)) && Was(tr, m, w, Exchanging(slot, code, pkce))
      && code in tr[m].codes && tr[m].codes[code] == Grant(aud, env.hash(pkce.verifier), nonce)
    case Storing(slot, code, pkce) =>
      && By(env, tr, m, Validate(w))
      && exists aud, nonce ::
           && Was(tr, m, w, Validating(slot, code, pkce, aud, nonce))
           && (env.audience(slot.connector) == "" || aud == env.audience(slot.connector))
           && (pkce.nonce == "" || nonce == pkce.nonce)
    case Ended(_) => true
  }

  lemma StepEnters(env: Env, tr: seq<State>, m: nat, a: Action, w: nat)
    requires By(env, tr, m, a) && w in tr[m + 1].callbacks
    requires !(w in tr[m].callbacks && tr[m].callbacks[w] == tr[m + 1].callbacks[w])
    ensures Entered(env, tr, m, w, tr[m + 1].callbacks[w])
  {
    var p := tr[m + 1].callbacks[w];
    if p.Storing? {
      var q := tr[m].callbacks[w];
      assert Was(tr, m, w, Validating(p.slot, p.code, p.pkce, q.aud, q.nonce));
    }
  }

  /** A callback is where it is because of a successful step, after which it stayed there. */
  lemma {:induction false} WasEntered(env: Env, tr: seq<State>, allowed: Policy, n: nat, w: nat) returns (m: nat)
    requires Run(env, tr, allowed) && n < |tr| && w in tr[n].callbacks
    ensures m < n && Entered(env, tr, m, w, tr[n].callbacks[w])
  {
    StepInto(Steps(env, allowed), tr, n);
    var a :| allowed(tr[n - 1], a) && Enabled(tr[n - 1], a) && tr[n] == Apply(env, tr[n - 1], a);
    assert By(env, tr, n - 1, a);
    if w in tr[n - 1].callbacks && tr[n - 1].callbacks[w] == tr[n].callbacks[w] {
      m := WasEntered(env, tr, allowed, n - 1, w);
    } else {
      StepEnters(env, tr, n - 1, a, w);
      m := n - 1;
    }
  }

  /**
   Every step that creates a session is a successful store, and the callback behind it arrived
   without an error, read its record, got through the exchange, and passed validation, in this order.
   */
  lemma SessionHasItsSteps(env: Env, tr: seq<State>, allowed: Policy, n: nat)
    returns (w: nat, arrived: nat, got: nat, deleted: nat, exchanged: nat, validated: nat)
    requires Run(env, tr, allowed) && n + 1 < |tr| && tr[n + 1].sessions != tr[n].sessions
    ensures By(env, tr, n, Store(w, true)) && |tr[n + 1].sessions| == |tr[n].sessions| + 1
    ensures arrived < got < deleted < exchanged < validated < n
    ensures var x := tr[n + 1].sessions[|tr[n].sessions|];
            && Was(tr, n, w, Storing(x.slot, x.code, x.pkce))
            && Entered(env, tr, validated, w, Storing(x.slot, x.code, x.pkce))
            && (exists aud, nonce :: Entered(env, tr, exchanged, w, Validating(x.slot, x.code, x.pkce, aud, nonce)))
            && Entered(env, tr, deleted, w, Exchanging(x.slot, x.code, x.pkce))
            && Entered(env, tr, got, w, Got(x.slot, x.code, x.pkce))
            && Entered(env, tr, arrived, w, Arrived(x.slot, x.code))
  {
    StepInto(Steps(env, allowed), tr, n + 1);
    var a :| allowed(tr[n], a) && Enabled(tr[n], a) && tr[n + 1] == Apply(env, tr[n], a);
    w := a.w;
    validated := WasEntered(env, tr, allowed, n, w);
    exchanged := WasEntered(env, tr, allowed, validated, w);
    deleted := WasEntered(env, tr, allowed, exchanged, w);
    got := WasEntered(env, tr, allowed, deleted, w);
    arrived := WasEntered(env, tr, allowed, got, w);
  }
}
