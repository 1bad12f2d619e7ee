/**
 Refreshing one session from many workers.

 Every proxied request may find its session close to expiry. The workers that notice
 share one session record, one lock that expires by itself, and an identity provider
 (IdP) that hands out a new refresh token whenever an old one is presented. The module
 models one worker's call as a sequence of atomic steps, so that any number of workers
 interleave freely, and the stores, the IdP and the processes may fail at every step.
 */
module SessionRefresh {
  import opened Clock
  import opened Options
  import opened Traces

  // ---------------------------------------------------------------- data

  datatype Session = Session(accessToken: string, refreshToken: string, idToken: string,
                             expiresAt: int, tenant: string)

  /** refreshEarly and lockTTL are in seconds, as configured. */
  datatype Config = Config(refreshEarly: int, lockTTL: int)

  predicate NeedsRefresh(c: Config, sess: Session, now: int) {
    sess.expiresAt - c.refreshEarly <= Unix(now)
  }

  /** What the IdP answers: an error, or tokens with possibly empty optional fields. */
  datatype Reply = Denied | Tokens(access: string, refresh: string, id: string, expiresIn: int)

  /** A lifetime the IdP omits counts as one hour. */
  function Lifetime(expiresIn: int): int {
    if expiresIn <= 0 then 3600 else expiresIn
  }

  /** The record to store after the IdP answered, computed at instant `now`. */
  function Refreshed(sess: Session, r: Reply, now: int): Session
    requires r.Tokens?
  {
    sess.(accessToken := r.access,
          expiresAt := if r.expiresIn <= 0 then Unix(now + 3600 * SECOND) else Unix(now) + r.expiresIn,
          refreshToken := if r.refresh != "" then r.refresh else sess.refreshToken,
          idToken := if r.id != "" then r.id else sess.idToken)
  }

  datatype Outcome =
    | Died | NotFound | NoRefreshToken | LockError | RefreshFailed | StoreFailed
    | Served(sess: Session, refreshed: bool)

  /** Where a worker stands between two steps. `since` is the instant it obtained the lock. */
  datatype Worker =
    | Start
    | Read(sess: Session)
    | Contend
    | Refused
    | Locked(since: int)
    | Reread(since: int, sess: Session)
    | Calling(since: int, sess: Session)
    | Answered(since: int, sess: Session, reply: Reply)
    | Writing(since: int, prev: Session, sess: Session)
    | Releasing(since: int, out: Outcome)
    | Returned(out: Outcome)
      // the refresh endpoint, which keeps the record it read before locking
    | RefreshStart
    | RefreshRead(sess: Session)
    | RefreshContend(sess: Session)
      // attaching a tenant, which writes back without the lock
    | AttachStart(tenant: string)
    | Attaching(sess: Session)

  /** One presentation of a record's refresh token to the IdP, the lifetime it granted, and its reply. */
  datatype Call = Call(token: string, at: int, lifetime: int, prev: Session, reply: Reply)

  /** From `issued` on all is history; no step reads more of it than the tokens already issued. */
  datatype State = State(
    now: int,
    store: Option<Session>,
    lock: Option<int>,              // the instant the lock record expires
    workers: map<nat, Worker>,
    issued: set<string>,            // refresh tokens in circulation so far
    calls: seq<Call>,
    spoiled: set<string>,           // tokens whose replacement was refused, omitted or lost
    renewed: int,                   // the instant a record was last computed from a reply
    stored: set<Session>)           // the records that have been in the store

  datatype LockAnswer = Granted | Busy | Errored(took: bool)
  datatype Role = EnsureFresh | RefreshEndpoint | AttachTenant(tenant: string)

  datatype Action =
    | Tick(dt: nat)
    | Spawn(w: nat, role: Role)
    | Get(w: nat, ok: bool)
    | Check(w: nat)
    | Obtain(w: nat, answer: LockAnswer)
    | Present(w: nat, reply: Reply)
    | Compute(w: nat)
    | Put(w: nat, stored: bool, acked: bool)
    | Release(w: nat, deleted: bool)
    | Crash(w: nat)
    | DropSession                   // logout, or the record's own time to live

  predicate Critical(p: Worker) {
    p.Locked? || p.Reread? || p.Calling? || p.Answered? || p.Writing? || p.Releasing?
  }

  // ---------------------------------------------------------------- steps

  predicate Free(s: State) {
    s.lock.None? || s.lock.value <= s.now
  }

  predicate At(s: State, w: nat, here: Worker -> bool) {
    w in s.workers && here(s.workers[w])
  }

  predicate Enabled(s: State, a: Action) {
    match a
    case Tick(_) => true
    case DropSession => true
    case Spawn(w, _) => w in s.workers ==> s.workers[w].Returned?
    case Get(w, _) =>
      At(s, w, (p: Worker) => p.Start? || p.Refused? || p.Locked? || p.RefreshStart? || p.AttachStart?)
    case Check(w) => At(s, w, (p: Worker) => p.Read? || p.Reread? || p.RefreshRead?)
    case Obtain(w, answer) =>
      && At(s, w, (p: Worker) => p.Contend? || p.RefreshContend?)
      && (answer == Granted || answer == Errored(true) ==> Free(s))
    case Present(w, reply) =>
      && At(s, w, (p: Worker) => p.Calling?)
      && (reply.Tokens? && reply.refresh != "" ==> reply.refresh !in s.issued)
    case Compute(w) => At(s, w, (p: Worker) => p.Answered? && p.reply.Tokens?)
    case Put(w, stored, acked) => At(s, w, (p: Worker) => p.Writing? || p.Attaching?) && (acked ==> stored)
    case Release(w, _) => At(s, w, (p: Worker) => p.Releasing?)
    case Crash(w) => At(s, w, (p: Worker) => !p.Returned?)
  }

  function Move(s: State, w: nat, p: Worker): State {
    s.(workers := s.workers[w := p])
  }

  function Starting(role: Role): Worker {
    match role
    case EnsureFresh => Start
    case RefreshEndpoint => RefreshStart
    case AttachTenant(tenant) => AttachStart(tenant)
  }

  /** Reading the session record; a failed read and a missing record end the call. */
  function AfterGet(s: State, p: Worker, ok: bool): Worker
    requires p.Start? || p.Refused? || p.Locked? || p.RefreshStart? || p.AttachStart?
  {
    if !ok || s.store.None? then
      if p.Locked? then Releasing(p.since, NotFound) else Returned(NotFound)
    else
      var sess := s.store.value;
      match p
      case Start => Read(sess)
      case Refused => Returned(Served(sess, false))
      case Locked(since) => Reread(since, sess)
      case RefreshStart => RefreshRead(sess)
      case AttachStart(tenant) => Attaching(sess.(tenant := tenant))
  }

  function AfterCheck(c: Config, now: int, p: Worker): Worker
    requires p.Read? || p.Reread? || p.RefreshRead?
  {
    var stale := p.sess.refreshToken != "" && NeedsRefresh(c, p.sess, now);
    match p
    case Read(sess) => if stale then Contend else Returned(Served(sess, false))
    case Reread(since, sess) => if stale then Calling(since, sess) else Releasing(since, Served(sess, false))
    case RefreshRead(sess) =>
      if sess.refreshToken == "" then Returned(NoRefreshToken)
      else if stale then RefreshContend(sess) else Returned(Served(sess, false))
  }

  function AfterObtain(c: Config, s: State, w: nat, answer: LockAnswer): State
    requires w in s.workers && (s.workers[w].Contend? || s.workers[w].RefreshContend?)
  {
    var p := s.workers[w];
    var until := Some(s.now + c.lockTTL * SECOND);
    match answer
    case Granted =>
      Move(s, w, if p.Contend? then Locked(s.now) else Calling(s.now, p.sess)).(lock := until)
    case Busy => Move(s, w, if p.Contend? then Refused else Returned(Served(p.sess, false)))
    case Errored(took) =>
      var t := Move(s, w, Returned(if p.Contend? then LockError else Served(p.sess, false)));
      if took then t.(lock := until) else t
  }

  function AfterPresent(s: State, w: nat, reply: Reply): State
    requires w in s.workers && s.workers[w].Calling?
  {
    var p := s.workers[w];
    var tok := p.sess.refreshToken;
    match reply
    case Denied =>
      Move(s, w, Releasing(p.since, RefreshFailed)).(
        calls := s.calls + [Call(tok, s.now, 0, p.sess, reply)], spoiled := s.spoiled + {tok})
    case Tokens(_, refresh, _, expiresIn) =>
      Move(s, w, Answered(p.since, p.sess, reply)).(
        calls := s.calls + [Call(tok, s.now, Lifetime(expiresIn), p.sess, reply)],
        issued := s.issued + (if refresh == "" then {} else {refresh}),
        spoiled := s.spoiled + (if refresh == "" then {tok} else {}))
  }

  function AfterPut(s: State, w: nat, stored: bool, acked: bool): State
    requires w in s.workers && (s.workers[w].Writing? || s.workers[w].Attaching?)
  {
    var p := s.workers[w];
    var out := if acked then Served(p.sess, p.Writing?) else StoreFailed;
    Move(s, w, if p.Writing? then Releasing(p.since, out) else Returned(out)).(
      store := if stored then Some(p.sess) else s.store,
      stored := s.stored + (if stored then {p.sess} else {}),
      spoiled := s.spoiled + (if p.Writing? && !stored then {p.prev.refreshToken} else {}))
  }

  function AfterCrash(s: State, w: nat): State
    requires w in s.workers
  {
    var p := s.workers[w];
    Move(s, w, Returned(Died)).(
      spoiled := s.spoiled + (if p.Answered? then {p.sess.refreshToken}
                              else if p.Writing? then {p.prev.refreshToken} else {}))
  }

  function Apply(c: Config, s: State, a: Action): State
    requires Enabled(s, a)
  {
    match a
    case Tick(dt) => s.(now := s.now + dt)
    case Spawn(w, role) => Move(s, w, Starting(role))
    case Get(w, ok) => Move(s, w, AfterGet(s, s.workers[w], ok))
    case Check(w) => Move(s, w, AfterCheck(c, s.now, s.workers[w]))
    case Obtain(w, answer) => AfterObtain(c, s, w, answer)
    case Present(w, reply) => AfterPresent(s, w, reply)
    case Compute(w) =>
      var p := s.workers[w];
      Move(s, w, Writing(p.since, p.sess, Refreshed(p.sess, p.reply, s.now))).(renewed := s.now)
    case Put(w, stored, acked) => AfterPut(s, w, stored, acked)
    case Release(w, deleted) =>
      Move(s, w, Returned(s.workers[w].out)).(lock := if deleted then None else s.lock)
    case Crash(w) => AfterCrash(s, w)
    case DropSession => s.(store := None)
  }

  // ---------------------------------------------------------------- runs

  /** Any session record, any left-over lock, no worker yet. */
  predicate Init(s: State) {
    && s.workers == map[] && s.calls == [] && s.spoiled == {}
    && (s.store.Some? ==> s.store.value.refreshToken in s.issued)
    && s.stored == if s.store.Some? then {s.store.value} else {}
  }

  /** Every holder is still within the time to live of its lock. */
  ghost predicate InTime(c: Config, s: State) {
    forall w :: w in s.workers && Critical(s.workers[w]) ==> s.now < s.workers[w].since + c.lockTTL * SECOND
  }

  /** The session record is there and still carries the token. */
  predicate StillStored(s: State, tok: string) {
    s.store.Some? && s.store.value.refreshToken == tok
  }

  /**
   A worker that kept a copy of the record acts on it only while the record still carries the
   copy's token: the refresh endpoint when it is granted the lock, attaching a tenant when it
   writes. Workers of ensureFresh keep no copy and are free.
   */
  predicate Guarded(s: State, a: Action) {
    match a
    case Obtain(w, answer) =>
      answer == Granted && w in s.workers && s.workers[w].RefreshContend? ==>
        StillStored(s, s.workers[w].sess.refreshToken)
    case Put(w, stored, _) =>
      stored && w in s.workers && s.workers[w].Attaching? ==> StillStored(s, s.workers[w].sess.refreshToken)
    case _ => true
  }

  /** Only ensureFresh workers are started. */
  predicate Cooperative(s: State, a: Action) {
    a.Spawn? ==> a.role.EnsureFresh?
  }

  /** The IdP rotates, the new record reaches the store, and nobody dies. */
  predicate FaultFree(s: State, a: Action) {
    match a
    case Present(_, reply) => reply.Tokens? && reply.refresh != ""
    case Put(_, stored, _) => stored
    case Crash(_) => false
    case _ => true
  }

  predicate GuardedFaultFree(s: State, a: Action) {
    Guarded(s, a) && FaultFree(s, a)
  }

  type Policy = (State, Action) -> bool

  ghost predicate Next(c: Config, s: State, t: State, allowed: Policy) {
    exists a :: allowed(s, a) && Enabled(s, a) && t == Apply(c, s, a)
  }

  ghost function Steps(c: Config, allowed: Policy): (State, State) -> bool {
    (s, t) => Next(c, s, t, allowed) && InTime(c, t)
  }

  /** Allowed steps, in any interleaving, during which no holder outlives its lock. */
  ghost predicate Path(c: Config, tr: seq<State>, allowed: Policy) {
    Chain(Steps(c, allowed), tr) && InTime(c, tr[0])
  }

  ghost predicate Run(c: Config, tr: seq<State>, allowed: Policy) {
    Path(c, tr, allowed) && Init(tr[0])
  }

  lemma AlwaysInTime(c: Config, tr: seq<State>, allowed: Policy, i: nat)
    requires Path(c, tr, allowed) && i < |tr|
    ensures InTime(c, tr[i])
  {
    if i > 0 {
      StepInto(Steps(c, allowed), tr, i);
    }
  }

  // ---------------------------------------------------------------- properties

  ghost predicate MutualExclusion(s: State) {
    forall w, v :: w in s.workers && v in s.workers && Critical(s.workers[w]) && Critical(s.workers[v]) ==> w == v
  }

  /** A token goes to the IdP a second time only if its replacement was refused, omitted or lost. */
  ghost predicate SingleUse(s: State) {
    forall i, j :: 0 <= i < j < |s.calls| && s.calls[i].token == s.calls[j].token ==> s.calls[i].token in s.spoiled
  }

  /** Later calls come no earlier than the granted lifetime allows, less the early-refresh margin. */
  ghost predicate Spaced(c: Config, s: State) {
    forall i, j :: 0 <= i < j < |s.calls| && s.calls[i].token !in s.spoiled ==>
      Unix(s.calls[j].at) >= Unix(s.calls[i].at) + s.calls[i].lifetime - c.refreshEarly
  }

  // ---------------------------------------------------------------- invariant

  ghost predicate LockInv(c: Config, s: State) {
    && MutualExclusion(s)
    && (forall w :: w in s.workers && Critical(s.workers[w]) ==>
          s.lock == Some(s.workers[w].since + c.lockTTL * SECOND))
  }

  /** Has presented a token and not yet stored its replacement. */
  predicate InFlight(p: Worker) {
    p.Answered? || p.Writing?
  }

  ghost predicate Used(s: State, tok: string) {
    exists k :: 0 <= k < |s.calls| && s.calls[k].token == tok
  }

  /** May be presented without breaking SingleUse. */
  ghost predicate Unused(s: State, tok: string) {
    tok in s.issued && (tok in s.spoiled || !Used(s, tok))
  }

  /**
   The record is what the reply to the call makes of the one presented, computed at instant `at`: the
   access token and lifetime granted, and the refresh and identity token where the IdP sent one.
   */
  predicate Renews(call: Call, at: int, sess: Session) {
    && call.reply.Tokens? && call.at <= at
    && sess.accessToken == call.reply.access
    && sess.expiresAt == Unix(at) + (if call.reply.expiresIn <= 0 then 3600 else call.reply.expiresIn)
    && sess.refreshToken == (if call.reply.refresh != "" then call.reply.refresh else call.token)
    && sess.idToken == (if call.reply.id != "" then call.reply.id else call.prev.idToken)
  }

  /** What the last call made of its record, unless its replacement was refused, omitted or lost. */
  ghost predicate Due(s: State, sess: Session) {
    s.calls == [] ||
    var last := s.calls[|s.calls| - 1];
    last.token in s.spoiled || Renews(last, s.renewed, sess)
  }

  /** What a worker knows about the record it read and the call it made. */
  ghost predicate HolderInv(c: Config, s: State, p: Worker) {
    match p
    case RefreshContend(sess) => NeedsRefresh(c, sess, s.now)
    case Reread(_, sess) => Unused(s, sess.refreshToken) && Due(s, sess) && Matches(s, sess)
    case Calling(_, sess) =>
      && Unused(s, sess.refreshToken) && Due(s, sess) && Matches(s, sess)
      && NeedsRefresh(c, sess, s.now)
    case Answered(_, sess, reply) =>
      && Matches(s, sess) && reply.Tokens? && CalledWith(s, sess) && s.calls[|s.calls| - 1].reply == reply
      && Replaces(s, sess.refreshToken, if reply.refresh != "" then reply.refresh else sess.refreshToken)
    case Writing(_, prev, sess) =>
      && Matches(s, prev) && CalledWith(s, prev)
      && Replaces(s, prev.refreshToken, sess.refreshToken) && LastRenews(s, sess) && sess.tenant == prev.tenant
    case Releasing(_, out) => out.Served? && out.refreshed ==> LastRenews(s, out.sess)
    case _ => true
  }

  /** The new token is new, or the IdP sent none and the old one goes on. */
  ghost predicate Replaces(s: State, before: string, after: string) {
    after in s.issued && (if after == before then before in s.spoiled else !Used(s, after))
  }

  /** The stored record, if it is still there, is the one the holder read. */
  predicate Matches(s: State, sess: Session) {
    s.store.Some? ==> s.store.value.refreshToken == sess.refreshToken
  }

  ghost predicate CalledWith(s: State, sess: Session) {
    s.calls != [] && s.calls[|s.calls| - 1].prev == sess
  }

  ghost predicate LastRenews(s: State, sess: Session) {
    s.calls != [] && Renews(s.calls[|s.calls| - 1], s.renewed, sess)
  }

  /** A call presents its record's token, and a reply with tokens grants its lifetime. */
  predicate CallOk(call: Call) {
    && call.token == call.prev.refreshToken
    && (call.reply.Tokens? ==> call.lifetime == if call.reply.expiresIn <= 0 then 3600 else call.reply.expiresIn)
  }

  ghost predicate HistoryInv(c: Config, s: State) {
    && SingleUse(s) && Spaced(c, s)
    && (forall k :: 0 <= k < |s.calls| ==> s.calls[k].at <= s.now && s.calls[k].token in s.issued && CallOk(s.calls[k]))
    && (forall i, j :: 0 <= i < j < |s.calls| ==> s.calls[i].at <= s.calls[j].at)
  }

  ghost predicate Quiet(s: State) {
    forall w :: w in s.workers ==> !InFlight(s.workers[w])
  }

  ghost predicate StoreInv(s: State) {
    s.store.Some? && Quiet(s) ==>
      Unused(s, s.store.value.refreshToken) && Due(s, s.store.value)
  }

  ghost predicate Inv(c: Config, s: State) {
    && LockInv(c, s) && HistoryInv(c, s) && StoreInv(s)
    && (forall w :: w in s.workers ==> HolderInv(c, s, s.workers[w]))
    && (s.store.Some? ==> s.store.value.refreshToken in s.issued)
  }

  // ---------------------------------------------------------------- what a kept copy is worth

  predicate KeepsCopy(p: Worker) {
    p.RefreshRead? || p.RefreshContend? || p.Attaching?
  }

  /** No other token is at work in this worker, and none is in flight. */
  predicate Carries(p: Worker, tok: string) {
    !InFlight(p) && (p.Reread? || p.Calling? ==> p.sess.refreshToken == tok)
  }

  /** The token is the only one at work. */
  ghost predicate Live(s: State, tok: string) {
    && (s.store.Some? ==> s.store.value.refreshToken == tok)
    && forall w :: w in s.workers ==> Carries(s.workers[w], tok)
  }

  /** If the record still carries the copy's token, the copy is as good as the record. */
  ghost predicate Current(s: State, copy: Session) {
    Quiet(s) && StillStored(s, copy.refreshToken) ==> Due(s, copy)
  }

  /** A copied token was presented since, or is still the only one at work. */
  ghost predicate CopyOk(s: State, copy: Session) {
    (Used(s, copy.refreshToken) || Live(s, copy.refreshToken)) && Current(s, copy)
  }

  ghost predicate CopyInv(s: State) {
    forall w :: w in s.workers && KeepsCopy(s.workers[w]) ==> CopyOk(s, s.workers[w].sess)
  }

  // ---------------------------------------------------------------- every step keeps the invariant

  /** Moving a worker that is not in flight cannot make the others quiet. */
  lemma QuietFrame(s: State, w: nat, p: Worker)
    requires w in s.workers ==> !InFlight(s.workers[w])
    ensures Quiet(Move(s, w, p)) ==> Quiet(s)
  {
    if Quiet(Move(s, w, p)) {
      forall v | v in s.workers ensures !InFlight(s.workers[v]) {
        assert v in Move(s, w, p).workers;
      }
    }
  }

  lemma MoveKeepsLock(c: Config, s: State, w: nat, p: Worker)
    requires LockInv(c, s)
    requires Critical(p) ==> w in s.workers && Critical(s.workers[w]) && p.since == s.workers[w].since
    ensures LockInv(c, Move(s, w, p))
  {
  }

  /** What a holder knows does not depend on the other workers. */
  lemma MoveKeepsKnowledge(c: Config, s: State, w: nat, p: Worker, q: Worker)
    requires HolderInv(c, s, q)
    ensures HolderInv(c, Move(s, w, p), q)
  {
  }

  /** A worker that neither enters the critical section nor learns anything keeps everything. */
  lemma MoveKeepsInv(c: Config, s: State, w: nat, p: Worker)
    requires Inv(c, s)
    requires w in s.workers ==> !InFlight(s.workers[w])
    requires HolderInv(c, s, p)
    requires Critical(p) ==> w in s.workers && Critical(s.workers[w]) && p.since == s.workers[w].since
    ensures Inv(c, Move(s, w, p))
  {
    QuietFrame(s, w, p);
    MoveKeepsLock(c, s, w, p);
    var t := Move(s, w, p);
    forall v | v in t.workers ensures HolderInv(c, t, t.workers[v]) {
      assert v != w ==> HolderInv(c, s, s.workers[v]);
      MoveKeepsKnowledge(c, s, w, p, t.workers[v]);
    }
  }

  lemma GetKeepsInv(c: Config, s: State, w: nat, ok: bool)
    requires Inv(c, s) && Enabled(s, Get(w, ok))
    ensures Inv(c, Move(s, w, AfterGet(s, s.workers[w], ok)))
  {
    if s.workers[w].Locked? {
      RereadKeepsInv(c, s, w, ok);
    } else {
      MoveKeepsInv(c, s, w, AfterGet(s, s.workers[w], ok));
    }
  }

  lemma CheckKeepsInv(c: Config, s: State, w: nat)
    requires Inv(c, s) && Enabled(s, Check(w))
    ensures Inv(c, Move(s, w, AfterCheck(c, s.now, s.workers[w])))
  {
    assert HolderInv(c, s, s.workers[w]);
    MoveKeepsInv(c, s, w, AfterCheck(c, s.now, s.workers[w]));
  }

  lemma DropKeepsInv(c: Config, s: State)
    requires Inv(c, s)
    ensures Inv(c, s.(store := None))
  {
    var t := s.(store := None);
    assert forall w :: w in s.workers ==> HolderInv(c, s, s.workers[w]) ==> HolderInv(c, t, t.workers[w]);
  }

  lemma TickKeepsInv(c: Config, s: State, dt: nat)
    requires Inv(c, s)
    ensures Inv(c, s.(now := s.now + dt))
  {
    var t := s.(now := s.now + dt);
    UnixBounds(s.now, t.now, 0);
    assert forall w :: w in s.workers ==> HolderInv(c, s, s.workers[w]) ==> HolderInv(c, t, t.workers[w]);
    assert Quiet(t) ==> Quiet(s);
  }

  /** With the lock held, no call is in flight, so the record read is unused and due. */
  lemma RereadKeepsInv(c: Config, s: State, w: nat, ok: bool)
    requires Inv(c, s) && w in s.workers && s.workers[w].Locked?
    ensures Inv(c, Move(s, w, AfterGet(s, s.workers[w], ok)))
  {
    assert Quiet(s);
    MoveKeepsInv(c, s, w, AfterGet(s, s.workers[w], ok));
  }

  /** The lock is granted only when it is free, and then no holder is left within its time. */
  lemma ObtainKeepsInv(c: Config, s: State, w: nat, answer: LockAnswer)
    requires Inv(c, s) && CopyInv(s) && InTime(c, s)
    requires Enabled(s, Obtain(w, answer)) && Guarded(s, Obtain(w, answer))
    ensures Inv(c, AfterObtain(c, s, w, answer))
  {
    if answer == Granted || answer == Errored(true) {
      LockKeepsInv(c, s, w, answer);
    } else {
      MoveKeepsInv(c, s, w, AfterObtain(c, s, w, answer).workers[w]);
    }
  }

  lemma LockKeepsInv(c: Config, s: State, w: nat, answer: LockAnswer)
    requires Inv(c, s) && CopyInv(s) && InTime(c, s) && (answer == Granted || answer == Errored(true))
    requires Enabled(s, Obtain(w, answer)) && Guarded(s, Obtain(w, answer))
    ensures Inv(c, AfterObtain(c, s, w, answer))
  {
    var p := AfterObtain(c, s, w, answer).workers[w];
    FreeMeansNoHolder(c, s);
    if p.Calling? {
      CopyIsAsGood(c, s, w);
    }
    GrantKeepsInv(c, s, w, p);
  }

  lemma FreeMeansNoHolder(c: Config, s: State)
    requires LockInv(c, s) && InTime(c, s) && Free(s)
    ensures Quiet(s) && forall v :: v in s.workers ==> !Critical(s.workers[v])
  {
  }

  /** A guarded copy may be presented like the record itself. */
  lemma CopyIsAsGood(c: Config, s: State, w: nat)
    requires Inv(c, s) && CopyInv(s) && Quiet(s)
    requires w in s.workers && s.workers[w].RefreshContend? && StillStored(s, s.workers[w].sess.refreshToken)
    ensures HolderInv(c, s, Calling(s.now, s.workers[w].sess))
  {
    assert HolderInv(c, s, s.workers[w]) && CopyOk(s, s.workers[w].sess);
  }

  lemma GrantKeepsInv(c: Config, s: State, w: nat, p: Worker)
    requires Inv(c, s) && Quiet(s) && (forall v :: v in s.workers ==> !Critical(s.workers[v]))
    requires (Critical(p) ==> p.since == s.now) && !InFlight(p) && HolderInv(c, s, p)
    ensures Inv(c, Move(s, w, p).(lock := Some(s.now + c.lockTTL * SECOND)))
  {
    var t := Move(s, w, p).(lock := Some(s.now + c.lockTTL * SECOND));
    forall v | v in t.workers ensures HolderInv(c, t, t.workers[v]) {
      assert v != w ==> HolderInv(c, s, s.workers[v]);
      MoveKeepsKnowledge(c, s, w, p, t.workers[v]);
    }
  }

  /** A step of the lock holder: all other workers are outside the critical section. */
  lemma HolderStep(c: Config, s: State, t: State, w: nat, p: Worker)
    requires LockInv(c, s) && w in s.workers && Critical(s.workers[w])
    requires t.workers == s.workers[w := p] && t.now == s.now
    requires forall v :: v in s.workers ==> HolderInv(c, s, s.workers[v])
    requires Critical(p) ==> p.since == s.workers[w].since && t.lock == s.lock
    requires HolderInv(c, t, p) && HistoryInv(c, t)
    requires t.store.Some? ==> t.store.value.refreshToken in t.issued
    requires !InFlight(p) && t.store.Some? ==>
               Unused(t, t.store.value.refreshToken) && Due(t, t.store.value)
    ensures Inv(c, t)
  {
    assert Quiet(t) ==> !InFlight(t.workers[w]);
    forall v | v in t.workers && v != w ensures !Critical(t.workers[v]) && HolderInv(c, t, t.workers[v]) {
      assert HolderInv(c, s, s.workers[v]);
    }
  }

  /** Presenting an unused token keeps the history: it is new, or its last replacement went wrong. */
  lemma PresentKeepsInv(c: Config, s: State, w: nat, reply: Reply)
    requires Inv(c, s) && Enabled(s, Present(w, reply))
    ensures Inv(c, AfterPresent(s, w, reply))
  {
    var t := AfterPresent(s, w, reply);
    var sess := s.workers[w].sess;
    assert HolderInv(c, s, s.workers[w]);
    PresentKeepsHistory(c, s, t, sess);
    assert t.calls[|s.calls|].token == sess.refreshToken;
    PresentedIsUsed(s, t);
    HolderStep(c, s, t, w, t.workers[w]);
  }

  /** One more call uses one more token. */
  lemma PresentedIsUsed(s: State, t: State)
    requires |t.calls| == |s.calls| + 1 && t.calls[..|s.calls|] == s.calls
    ensures forall tok :: Used(t, tok) <==> Used(s, tok) || tok == t.calls[|s.calls|].token
  {
    assert forall k :: 0 <= k < |s.calls| ==> t.calls[k] == s.calls[k];
  }

  lemma PresentKeepsHistory(c: Config, s: State, t: State, sess: Session)
    requires HistoryInv(c, s) && Unused(s, sess.refreshToken) && Due(s, sess)
    requires NeedsRefresh(c, sess, s.now)
    requires |t.calls| == |s.calls| + 1 && t.calls[..|s.calls|] == s.calls
    requires t.calls[|s.calls|].token == sess.refreshToken && t.calls[|s.calls|].at == s.now == t.now
    requires CallOk(t.calls[|s.calls|])
    requires s.spoiled <= t.spoiled && s.issued <= t.issued
    ensures HistoryInv(c, t)
  {
    var n := |s.calls|;
    assert forall k :: 0 <= k < n ==> t.calls[k] == s.calls[k];
    assert forall k :: 0 <= k <= n ==> CallOk(t.calls[k]);
    forall i | 0 <= i < n && t.calls[i].token !in t.spoiled
      ensures Unix(t.calls[n].at) >= Unix(t.calls[i].at) + t.calls[i].lifetime - c.refreshEarly
    {
      NewCallIsDue(c, s, sess, i);
    }
    forall i, j | 0 <= i < j < |t.calls| && t.calls[i].token == t.calls[j].token
      ensures t.calls[i].token in t.spoiled
    {
      assert s.calls[i].token == t.calls[i].token;
    }
  }

  /** The last unspoiled grant bounds the new call, and earlier grants bound the last call. */
  lemma NewCallIsDue(c: Config, s: State, sess: Session, i: nat)
    requires HistoryInv(c, s) && Due(s, sess) && Unused(s, sess.refreshToken) && NeedsRefresh(c, sess, s.now)
    requires i < |s.calls| && s.calls[i].token !in s.spoiled
    ensures Unix(s.now) >= Unix(s.calls[i].at) + s.calls[i].lifetime - c.refreshEarly
  {
    var last := s.calls[|s.calls| - 1];
    UnixBounds(last.at, s.now, 0);
    UnixBounds(last.at, s.renewed, 0);
    assert CallOk(last);
  }

  lemma ComputeKeepsInv(c: Config, s: State, w: nat)
    requires Inv(c, s) && Enabled(s, Compute(w))
    ensures Inv(c, Apply(c, s, Compute(w)))
  {
    var t := Apply(c, s, Compute(w));
    assert HolderInv(c, s, s.workers[w]);
    UnixBounds(s.calls[|s.calls| - 1].at, s.now, 0);
    HolderStep(c, s, t, w, t.workers[w]);
  }

  lemma PutKeepsInv(c: Config, s: State, w: nat, stored: bool, acked: bool)
    requires Inv(c, s) && CopyInv(s)
    requires Enabled(s, Put(w, stored, acked)) && Guarded(s, Put(w, stored, acked))
    ensures Inv(c, AfterPut(s, w, stored, acked))
  {
    if s.workers[w].Writing? {
      var t := AfterPut(s, w, stored, acked);
      assert HolderInv(c, s, s.workers[w]);
      HolderStep(c, s, t, w, t.workers[w]);
    } else {
      AttachKeepsInv(c, s, w, stored, acked);
    }
  }

  /** Writing a guarded copy back changes neither the token nor what its expiry allows. */
  lemma AttachKeepsInv(c: Config, s: State, w: nat, stored: bool, acked: bool)
    requires Inv(c, s) && CopyInv(s) && w in s.workers && s.workers[w].Attaching?
    requires stored ==> StillStored(s, s.workers[w].sess.refreshToken)
    ensures Inv(c, AfterPut(s, w, stored, acked))
  {
    var p := AfterPut(s, w, stored, acked).workers[w];
    AttachOutcome(s, w, stored, acked);
    CurrentFrame(s, Move(s, w, p), w, p);
    assert CopyOk(s, s.workers[w].sess);
    MoveKeepsInv(c, s, w, p);
    if stored {
      SameTokenKeepsInv(c, Move(s, w, p), s.workers[w].sess);
    }
  }

  lemma AttachOutcome(s: State, w: nat, stored: bool, acked: bool)
    requires w in s.workers && s.workers[w].Attaching?
    ensures var t := AfterPut(s, w, stored, acked);
            && w in t.workers && t.workers[w].Returned?
            && t == if stored then Move(s, w, t.workers[w]).(store := Some(s.workers[w].sess),
                                                            stored := s.stored + {s.workers[w].sess})
                    else Move(s, w, t.workers[w])
  {
    assert s.spoiled + {} == s.spoiled && s.stored + {} == s.stored;
  }

  lemma SameTokenKeepsInv(c: Config, s: State, copy: Session)
    requires Inv(c, s) && StillStored(s, copy.refreshToken) && Current(s, copy)
    ensures Inv(c, s.(store := Some(copy), stored := s.stored + {copy}))
  {
    var t := s.(store := Some(copy), stored := s.stored + {copy});
    forall v | v in t.workers ensures HolderInv(c, t, t.workers[v]) {
      assert HolderInv(c, s, s.workers[v]);
    }
    assert Quiet(t) ==> Quiet(s);
  }

  lemma ReleaseKeepsInv(c: Config, s: State, w: nat, deleted: bool)
    requires Inv(c, s) && Enabled(s, Release(w, deleted))
    ensures Inv(c, Apply(c, s, Release(w, deleted)))
  {
    var t := Apply(c, s, Release(w, deleted));
    assert Quiet(s);
    HolderStep(c, s, t, w, t.workers[w]);
  }

  lemma CrashKeepsInv(c: Config, s: State, w: nat)
    requires Inv(c, s) && Enabled(s, Crash(w))
    ensures Inv(c, AfterCrash(s, w))
  {
    var t := AfterCrash(s, w);
    if InFlight(s.workers[w]) {
      assert HolderInv(c, s, s.workers[w]);
      HolderStep(c, s, t, w, t.workers[w]);
    } else {
      MoveKeepsInv(c, s, w, Returned(Died));
      assert t == Move(s, w, Returned(Died));
    }
  }

  /** The steps of one worker outside the critical section, and of the world. */
  predicate Minor(a: Action) {
    a.Tick? || a.DropSession? || a.Spawn? || a.Get? || a.Check?
  }

  lemma MinorKeepsInv(c: Config, s: State, a: Action)
    requires Inv(c, s) && Enabled(s, a) && Minor(a)
    ensures Inv(c, Apply(c, s, a))
  {
    match a
    case Tick(dt) => TickKeepsInv(c, s, dt);
    case DropSession => DropKeepsInv(c, s);
    case Spawn(w, role) => MoveKeepsInv(c, s, w, Starting(role));
    case Get(w, ok) => GetKeepsInv(c, s, w, ok);
    case Check(w) => CheckKeepsInv(c, s, w);
  }

  lemma StepKeepsInv(c: Config, s: State, a: Action)
    requires Inv(c, s) && CopyInv(s) && InTime(c, s) && Enabled(s, a) && Guarded(s, a)
    ensures Inv(c, Apply(c, s, a))
  {
    if Minor(a) {
      MinorKeepsInv(c, s, a);
    } else {
      match a
      case Obtain(w, answer) => ObtainKeepsInv(c, s, w, answer);
      case Present(w, reply) => PresentKeepsInv(c, s, w, reply);
      case Compute(w) => ComputeKeepsInv(c, s, w);
      case Put(w, stored, acked) => PutKeepsInv(c, s, w, stored, acked);
      case Release(w, deleted) => ReleaseKeepsInv(c, s, w, deleted);
      case Crash(w) => CrashKeepsInv(c, s, w);
    }
  }

  // ---------------------------------------------------------------- every step keeps the copies' worth

  /** One worker moves; what is asked of the step is asked for all tokens and copies at once. */
  lemma CopiesStep(s: State, t: State, w: nat, p: Worker)
    requires CopyInv(s) && t.workers == s.workers[w := p] && s.calls <= t.calls
    requires forall tok :: Live(s, tok) ==>
               Used(t, tok) || ((t.store.Some? ==> t.store.value.refreshToken == tok) && Carries(p, tok))
    requires forall copy :: CopyOk(s, copy) ==> Current(t, copy)
    requires KeepsCopy(p) ==> CopyOk(t, p.sess)
    ensures CopyInv(t)
  {
    forall v | v in t.workers && v != w && KeepsCopy(t.workers[v]) ensures CopyOk(t, t.workers[v].sess) {
      OthersStayOk(s, t, w, p, s.workers[v].sess);
    }
  }

  lemma OthersStayOk(s: State, t: State, w: nat, p: Worker, copy: Session)
    requires CopyOk(s, copy) && t.workers == s.workers[w := p] && s.calls <= t.calls && Current(t, copy)
    requires Live(s, copy.refreshToken) ==>
               Used(t, copy.refreshToken)
               || ((t.store.Some? ==> t.store.value.refreshToken == copy.refreshToken)
                   && Carries(p, copy.refreshToken))
    ensures CopyOk(t, copy)
  {
    if Used(s, copy.refreshToken) {
      var k :| 0 <= k < |s.calls| && s.calls[k].token == copy.refreshToken;
      assert t.calls[k].token == copy.refreshToken;
    }
  }

  /** A step that leaves record, calls and tokens in flight alone keeps every copy's expiry as it was. */
  lemma CurrentFrame(s: State, t: State, w: nat, p: Worker)
    requires t.workers == s.workers[w := p] && (w in s.workers ==> InFlight(s.workers[w]) == InFlight(p))
    requires t.store == s.store && t.calls == s.calls && t.spoiled == s.spoiled && t.renewed == s.renewed
    ensures forall copy :: Current(s, copy) ==> Current(t, copy)
  {
    if Quiet(t) {
      forall v | v in s.workers ensures !InFlight(s.workers[v]) {
        assert v in t.workers;
      }
    }
  }

  /** A record just read is a good copy: unused, or its replacement is in flight. */
  lemma FreshCopyIsOk(c: Config, s: State, copy: Session)
    requires Inv(c, s) && s.store.Some? && copy == s.store.value.(tenant := copy.tenant)
    ensures CopyOk(s, copy)
  {
    var tok := copy.refreshToken;
    if !Used(s, tok) {
      forall v | v in s.workers ensures Carries(s.workers[v], tok) {
        assert HolderInv(c, s, s.workers[v]);
      }
    }
  }

  lemma GetKeepsCopies(c: Config, s: State, w: nat, ok: bool)
    requires Inv(c, s) && CopyInv(s) && Enabled(s, Get(w, ok))
    ensures CopyInv(Move(s, w, AfterGet(s, s.workers[w], ok)))
  {
    var p := AfterGet(s, s.workers[w], ok);
    var t := Move(s, w, p);
    CurrentFrame(s, t, w, p);
    if KeepsCopy(p) {
      FreshCopyIsOk(c, s, p.sess);
      OthersStayOk(s, t, w, p, p.sess);
    }
    CopiesStep(s, t, w, p);
  }

  /** A worker moves on with what it had. */
  lemma MoveKeepsCopies(s: State, t: State, w: nat, p: Worker)
    requires CopyInv(s) && t.workers == s.workers[w := p]
    requires t.store == s.store && t.calls == s.calls && t.spoiled == s.spoiled && t.renewed == s.renewed
    requires w in s.workers ==> !InFlight(s.workers[w])
    requires !InFlight(p)
    requires p.Reread? || p.Calling? ==>
               || StillStored(s, p.sess.refreshToken)
               || (w in s.workers && (s.workers[w].Reread? || s.workers[w].Calling?) && s.workers[w].sess == p.sess)
    requires KeepsCopy(p) ==> w in s.workers && KeepsCopy(s.workers[w]) && s.workers[w].sess == p.sess
    ensures CopyInv(t)
  {
    CurrentFrame(s, t, w, p);
    if KeepsCopy(p) {
      OthersStayOk(s, t, w, p, p.sess);
    }
    CopiesStep(s, t, w, p);
  }

  lemma PresentKeepsCopies(c: Config, s: State, w: nat, reply: Reply)
    requires Inv(c, s) && CopyInv(s) && Enabled(s, Present(w, reply))
    ensures CopyInv(AfterPresent(s, w, reply))
  {
    var t := AfterPresent(s, w, reply);
    PresentedIsUsed(s, t);
    assert t.workers[w].Answered? ==> !Quiet(t);
    CopiesStep(s, t, w, t.workers[w]);
  }

  lemma ComputeKeepsCopies(c: Config, s: State, w: nat)
    requires CopyInv(s) && Enabled(s, Compute(w))
    ensures CopyInv(Apply(c, s, Compute(w)))
  {
    var t := Apply(c, s, Compute(w));
    assert w in t.workers && InFlight(t.workers[w]);
    CopiesStep(s, t, w, t.workers[w]);
  }

  /** The new record cannot be mistaken for an old copy, and a lost one spoils the token last presented. */
  lemma PutKeepsCopies(c: Config, s: State, w: nat, stored: bool, acked: bool)
    requires Inv(c, s) && CopyInv(s)
    requires Enabled(s, Put(w, stored, acked)) && Guarded(s, Put(w, stored, acked))
    ensures CopyInv(AfterPut(s, w, stored, acked))
  {
    var t := AfterPut(s, w, stored, acked);
    var p := s.workers[w];
    assert HolderInv(c, s, p);
    if p.Writing? {
      assert forall tok :: !Live(s, tok);
      CopiesStep(s, t, w, t.workers[w]);
    } else {
      AttachKeepsCurrent(s, t, w);
      CopiesStep(s, t, w, t.workers[w]);
    }
  }

  lemma AttachKeepsCurrent(s: State, t: State, w: nat)
    requires w in s.workers && w in t.workers && t.workers == s.workers[w := t.workers[w]]
    requires !InFlight(s.workers[w]) && t.calls == s.calls && t.spoiled == s.spoiled && t.renewed == s.renewed
    requires t.store == s.store || (s.store.Some? && StillStored(t, s.store.value.refreshToken))
    ensures forall copy :: Current(s, copy) ==> Current(t, copy)
  {
    if Quiet(t) {
      forall v | v in s.workers ensures !InFlight(s.workers[v]) {
        assert v in t.workers;
      }
    }
  }

  lemma CrashKeepsCopies(c: Config, s: State, w: nat)
    requires Inv(c, s) && CopyInv(s) && Enabled(s, Crash(w))
    ensures CopyInv(AfterCrash(s, w))
  {
    var t := AfterCrash(s, w);
    if InFlight(s.workers[w]) {
      assert HolderInv(c, s, s.workers[w]);
      CopiesStep(s, t, w, t.workers[w]);
    } else {
      MoveKeepsCopies(s, t, w, t.workers[w]);
    }
  }

  lemma WorldKeepsCopies(c: Config, s: State, a: Action)
    requires CopyInv(s) && Enabled(s, a) && (a.Tick? || a.DropSession?)
    ensures CopyInv(Apply(c, s, a))
  {
    var t := Apply(c, s, a);
    forall w | w in t.workers && KeepsCopy(t.workers[w]) ensures CopyOk(t, t.workers[w].sess) {
      assert CopyOk(s, s.workers[w].sess);
      assert Quiet(t) ==> Quiet(s);
    }
  }

  lemma StepKeepsCopies(c: Config, s: State, a: Action)
    requires Inv(c, s) && CopyInv(s) && Enabled(s, a) && Guarded(s, a)
    ensures CopyInv(Apply(c, s, a))
  {
    match a
    case Tick(_) => WorldKeepsCopies(c, s, a);
    case DropSession => WorldKeepsCopies(c, s, a);
    case Spawn(w, _) => PlainKeepsCopies(c, s, a);
    case Check(w) => PlainKeepsCopies(c, s, a);
    case Obtain(w, _) => PlainKeepsCopies(c, s, a);
    case Release(w, _) => PlainKeepsCopies(c, s, a);
    case Get(w, ok) => GetKeepsCopies(c, s, w, ok);
    case Present(w, reply) => PresentKeepsCopies(c, s, w, reply);
    case Compute(w) => ComputeKeepsCopies(c, s, w);
    case Put(w, stored, acked) => PutKeepsCopies(c, s, w, stored, acked);
    case Crash(w) => CrashKeepsCopies(c, s, w);
  }

  /** Steps in which a worker moves on with what it had. */
  lemma PlainKeepsCopies(c: Config, s: State, a: Action)
    requires CopyInv(s) && Enabled(s, a) && Guarded(s, a) && (a.Spawn? || a.Check? || a.Obtain? || a.Release?)
    ensures CopyInv(Apply(c, s, a))
  {
    var t := Apply(c, s, a);
    MoveKeepsCopies(s, t, a.w, t.workers[a.w]);
  }

  // ---------------------------------------------------------------- theorems over all runs

  lemma {:induction false} RunKeepsInv(c: Config, tr: seq<State>, i: nat)
    requires Run(c, tr, Guarded) && i < |tr|
    ensures Inv(c, tr[i]) && CopyInv(tr[i])
  {
    if i > 0 {
      RunKeepsInv(c, tr, i - 1);
      AlwaysInTime(c, tr, Guarded, i - 1);
      StepInto(Steps(c, Guarded), tr, i);
      var a :| Guarded(tr[i - 1], a) && Enabled(tr[i - 1], a) && tr[i] == Apply(c, tr[i - 1], a);
      StepKeepsInv(c, tr[i - 1], a);
      StepKeepsCopies(c, tr[i - 1], a);
    }
  }

  /**
   Whatever fails and however workers of all three roles interleave, as long as kept copies are
   guarded: one worker in the critical section, a token is presented again only when its
   replacement was refused, omitted or lost, and calls keep their distance.
   */
  lemma RefreshIsSafe(c: Config, tr: seq<State>, i: nat)
    requires Run(c, tr, Guarded) && i < |tr|
    ensures MutualExclusion(tr[i]) && SingleUse(tr[i]) && Spaced(c, tr[i])
  {
    RunKeepsInv(c, tr, i);
  }

  /**
   At rest, the record is exactly what the provider's last reply made of the one presented, the
   tenant apart, unless the replacement was refused, omitted or lost.
   */
  lemma RecordIsTheLastReply(c: Config, tr: seq<State>, i: nat)
    requires Run(c, tr, Guarded) && i < |tr| && tr[i].store.Some? && Quiet(tr[i]) && tr[i].calls != []
    ensures var last := tr[i].calls[|tr[i].calls| - 1];
            last.token !in tr[i].spoiled ==> Renews(last, tr[i].renewed, tr[i].store.value)
  {
    RunKeepsInv(c, tr, i);
  }

  /** A worker leaving with a refreshed session has what the last reply made of its record. */
  lemma RefreshedIsTheLastReply(c: Config, tr: seq<State>, i: nat, w: nat)
    requires Run(c, tr, Guarded) && i < |tr| && w in tr[i].workers && tr[i].workers[w].Releasing?
    requires tr[i].workers[w].out.Served? && tr[i].workers[w].out.refreshed
    ensures tr[i].calls != []
    ensures Renews(tr[i].calls[|tr[i].calls| - 1], tr[i].renewed, tr[i].workers[w].out.sess)
  {
    RunKeepsInv(c, tr, i);
    assert HolderInv(c, tr[i], tr[i].workers[w]);
  }

  /** The records a worker has read, and the one it hands out. */
  predicate FromStore(s: State, p: Worker) {
    match p
    case Read(sess) => sess in s.stored
    case RefreshRead(sess) => sess in s.stored
    case RefreshContend(sess) => sess in s.stored
    case Reread(_, sess) => sess in s.stored
    case Calling(_, sess) => sess in s.stored
    case Releasing(_, out) => out.Served? ==> out.sess in s.stored
    case Returned(out) => out.Served? ==> out.sess in s.stored
    case _ => true
  }

  ghost predicate SeenInv(s: State) {
    && (s.store.Some? ==> s.store.value in s.stored)
    && forall w :: w in s.workers ==> FromStore(s, s.workers[w])
  }

  lemma StepKeepsSeen(c: Config, s: State, a: Action)
    requires SeenInv(s) && Enabled(s, a)
    ensures SeenInv(Apply(c, s, a))
  {
    var t := Apply(c, s, a);
    assert s.stored <= t.stored;
    forall w | w in t.workers ensures FromStore(t, t.workers[w]) {
      assert w in s.workers ==> FromStore(s, s.workers[w]);
    }
  }

  /** On any run, whatever fails: every record a worker hands out was in the store. */
  lemma {:induction false} ServedWasStored(c: Config, tr: seq<State>, allowed: Policy, i: nat)
    requires Run(c, tr, allowed) && i < |tr|
    ensures SeenInv(tr[i])
  {
    if i > 0 {
      ServedWasStored(c, tr, allowed, i - 1);
      StepInto(Steps(c, allowed), tr, i);
      var a :| allowed(tr[i - 1], a) && Enabled(tr[i - 1], a) && tr[i] == Apply(c, tr[i - 1], a);
      StepKeepsSeen(c, tr[i - 1], a);
    }
  }

  /** A worker of ensureFresh, which keeps no copy. */
  predicate OfEnsureFresh(p: Worker) {
    !(p.RefreshStart? || p.AttachStart? || KeepsCopy(p))
  }

  lemma StaysOfEnsureFresh(c: Config, s: State, a: Action)
    requires Enabled(s, a) && Cooperative(s, a) && !a.Tick? && !a.DropSession?
    requires a.w in s.workers ==> OfEnsureFresh(s.workers[a.w])
    ensures var t := Apply(c, s, a);
            a.w in t.workers && t.workers == s.workers[a.w := t.workers[a.w]] && OfEnsureFresh(t.workers[a.w])
  {
  }

  lemma {:induction false} OnlyEnsureFresh(c: Config, tr: seq<State>, i: nat)
    requires Run(c, tr, Cooperative) && i < |tr|
    ensures forall w :: w in tr[i].workers ==> OfEnsureFresh(tr[i].workers[w])
  {
    if i > 0 {
      OnlyEnsureFresh(c, tr, i - 1);
      StepInto(Steps(c, Cooperative), tr, i);
      var a :| Cooperative(tr[i - 1], a) && Enabled(tr[i - 1], a) && tr[i] == Apply(c, tr[i - 1], a);
      if !a.Tick? && !a.DropSession? {
        StaysOfEnsureFresh(c, tr[i - 1], a);
      }
    }
  }

  /** Runs of ensureFresh alone need no guard. */
  lemma EnsureFreshIsGuarded(c: Config, tr: seq<State>)
    requires Run(c, tr, Cooperative)
    ensures Run(c, tr, Guarded)
  {
    forall i | 0 <= i < |tr| - 1 ensures Steps(c, Guarded)(tr[i], tr[i + 1]) {
      OnlyEnsureFresh(c, tr, i);
      StepInto(Steps(c, Cooperative), tr, i + 1);
      var a :| Cooperative(tr[i], a) && Enabled(tr[i], a) && tr[i + 1] == Apply(c, tr[i], a);
      assert Guarded(tr[i], a);
    }
  }

  lemma EnsureFreshIsSafe(c: Config, tr: seq<State>, i: nat)
    requires Run(c, tr, Cooperative) && i < |tr|
    ensures MutualExclusion(tr[i]) && SingleUse(tr[i]) && Spaced(c, tr[i])
  {
    EnsureFreshIsGuarded(c, tr);
    RefreshIsSafe(c, tr, i);
  }

  lemma {:induction false} FaultFreeSpoilsNothing(c: Config, tr: seq<State>, i: nat)
    requires Path(c, tr, GuardedFaultFree) && tr[0].spoiled == {} && i < |tr|
    ensures tr[i].spoiled == {} && Path(c, tr, Guarded)
  {
    Relax(Steps(c, GuardedFaultFree), Steps(c, Guarded), tr);
    if i > 0 {
      FaultFreeSpoilsNothing(c, tr, i - 1);
      StepInto(Steps(c, GuardedFaultFree), tr, i);
    }
  }

  /** Without failures no refresh token is presented twice, and calls are a granted lifetime apart. */
  lemma NoTokenTwice(c: Config, tr: seq<State>, n: nat, i: nat, j: nat)
    requires Run(c, tr, GuardedFaultFree) && n < |tr|
    requires i < j < |tr[n].calls|
    ensures tr[n].calls[i].token != tr[n].calls[j].token
    ensures var gap := tr[n].calls[i].lifetime - c.refreshEarly;
            && Unix(tr[n].calls[j].at) >= Unix(tr[n].calls[i].at) + gap
            && tr[n].calls[j].at - tr[n].calls[i].at > (gap - 1) * SECOND
  {
    FaultFreeSpoilsNothing(c, tr, n);
    RunKeepsInv(c, tr, n);
  }

  /** If every grant lasts at least L seconds, a window of L - refreshEarly seconds sees one call. */
  lemma OneCallPerWindow(c: Config, tr: seq<State>, n: nat, L: int, from: int, i: nat, j: nat)
    requires Run(c, tr, GuardedFaultFree) && n < |tr|
    requires forall k :: 0 <= k < |tr[n].calls| ==> tr[n].calls[k].lifetime >= L
    requires i < |tr[n].calls| && from <= Unix(tr[n].calls[i].at) < from + L - c.refreshEarly
    requires j < |tr[n].calls| && from <= Unix(tr[n].calls[j].at) < from + L - c.refreshEarly
    ensures i == j
  {
    if i < j {
      NoTokenTwice(c, tr, n, i, j);
    } else if j < i {
      NoTokenTwice(c, tr, n, j, i);
    }
  }

  // ---------------------------------------------------------------- the guard is exact

  /** One more call keeps single use exactly if the token is new or spoiled. */
  lemma CallKeepsSingleUse(s: State, t: State)
    requires SingleUse(s) && t.spoiled == s.spoiled
    requires |t.calls| == |s.calls| + 1 && t.calls[..|s.calls|] == s.calls
    ensures var tok := t.calls[|s.calls|].token; SingleUse(t) <==> tok in s.spoiled || !Used(s, tok)
  {
    var n := |s.calls|;
    var tok := t.calls[n].token;
    assert forall k :: 0 <= k < n ==> t.calls[k] == s.calls[k];
    if Used(s, tok) {
      var k :| 0 <= k < n && s.calls[k].token == tok;
      assert t.calls[k].token == t.calls[n].token;
    }
  }

  /**
   Wherever a guarded run has got to: a refresh-endpoint caller that is granted the lock and
   presents its copy keeps single use exactly if the record still carries the copy's token,
   spoiled tokens aside.
   */
  lemma GrantIsSafeWhileStored(c: Config, tr: seq<State>, i: nat, w: nat, reply: Reply)
    requires Run(c, tr, Guarded) && i < |tr| && tr[i].store.Some?
    requires Enabled(tr[i], Obtain(w, Granted)) && tr[i].workers[w].RefreshContend?
    requires reply.Tokens? && reply.refresh != "" && reply.refresh !in tr[i].issued
    ensures var s := tr[i];
            var tok := s.workers[w].sess.refreshToken;
            var t := Apply(c, s, Obtain(w, Granted));
            && Enabled(t, Present(w, reply))
            && (SingleUse(Apply(c, t, Present(w, reply))) <==> StillStored(s, tok) || tok in s.spoiled)
  {
    var s := tr[i];
    var copy := s.workers[w].sess;
    RunKeepsInv(c, tr, i);
    AlwaysInTime(c, tr, Guarded, i);
    FreeMeansNoHolder(c, s);
    assert CopyOk(s, copy);
    CallKeepsSingleUse(s, Apply(c, Apply(c, s, Obtain(w, Granted)), Present(w, reply)));
  }

  /**
   Likewise for attaching a tenant, with no call in flight: the next presentation of the token it
   writes keeps single use exactly if the record still carried that token.
   */
  lemma WriteIsSafeWhileStored(c: Config, tr: seq<State>, i: nat, w: nat, u: State)
    requires Run(c, tr, Guarded) && i < |tr| && tr[i].store.Some? && Quiet(tr[i])
    requires Enabled(tr[i], Put(w, true, true)) && tr[i].workers[w].Attaching?
    requires var t := Apply(c, tr[i], Put(w, true, true));
             && u.spoiled == t.spoiled && |u.calls| == |t.calls| + 1 && u.calls[..|t.calls|] == t.calls
             && u.calls[|t.calls|].token == t.store.value.refreshToken
    ensures var tok := tr[i].workers[w].sess.refreshToken;
            SingleUse(u) <==> StillStored(tr[i], tok) || tok in tr[i].spoiled
  {
    RunKeepsInv(c, tr, i);
    assert CopyOk(tr[i], tr[i].workers[w].sess);
    CallKeepsSingleUse(tr[i], u);
  }

  /** The lock's lifetime is the exact limit: from that instant on any waiting worker gets in as well. */
  lemma OverrunAdmitsSecondHolder(c: Config, s: State, w: nat, v: nat)
    requires w in s.workers && Critical(s.workers[w]) && v in s.workers && s.workers[v].Contend?
    requires s.lock == Some(s.workers[w].since + c.lockTTL * SECOND)
    ensures Enabled(s, Obtain(v, Granted)) <==> s.now >= s.workers[w].since + c.lockTTL * SECOND
    ensures Enabled(s, Obtain(v, Granted)) ==> !MutualExclusion(Apply(c, s, Obtain(v, Granted)))
  {
    if Enabled(s, Obtain(v, Granted)) {
      var t := Apply(c, s, Obtain(v, Granted));
      assert w in t.workers && v in t.workers && Critical(t.workers[w]) && Critical(t.workers[v]);
    }
  }

  // ---------------------------------------------------------------- runs without the guard

  /** The record a worker at the lock will present: the endpoint's own copy, or the stored one. */
  predicate Poised(c: Config, s: State, w: nat, sess: Session) {
    && w in s.workers && Free(s) && sess.refreshToken != "" && NeedsRefresh(c, sess, s.now)
    && (s.workers[w] == RefreshContend(sess) || (s.workers[w] == Contend && s.store == Some(sess)))
  }

  function AfterRound(s: State, w: nat, sess: Session, refresh: string): State {
    var renewed := Refreshed(sess, Tokens("", refresh, "", 0), s.now);
    Move(s, w, Returned(Served(renewed, true))).(
      lock := None, store := Some(renewed), issued := s.issued + {refresh},
      calls := s.calls + [Call(sess.refreshToken, s.now, 3600, sess, Tokens("", refresh, "", 0))],
      renewed := s.now, stored := s.stored + {renewed})
  }

  /** One more step of worker w, at the same instant. */
  lemma Follow(c: Config, allowed: Policy, tr: seq<State>, a: Action, w: nat, p: Worker) returns (all: seq<State>)
    requires Path(c, tr, allowed) && Enabled(Last(tr), a) && allowed(Last(tr), a)
    requires var s, t := Last(tr), Apply(c, Last(tr), a);
             && t.now == s.now && t.workers == s.workers[w := p]
             && (Critical(p) ==> s.now < p.since + c.lockTTL * SECOND)
    ensures Path(c, all, allowed) && all[0] == tr[0] && Last(all) == Apply(c, Last(tr), a)
  {
    AlwaysInTime(c, tr, allowed, |tr| - 1);
    var t := Apply(c, Last(tr), a);
    assert InTime(c, t) && Next(c, Last(tr), t, allowed);
    all := tr + [t];
    Extend(Steps(c, allowed), tr, t);
  }

  lemma Enter(c: Config, tr: seq<State>, w: nat, sess: Session) returns (all: seq<State>)
    requires c.lockTTL > 0 && Path(c, tr, FaultFree) && Poised(c, Last(tr), w, sess)
    ensures Path(c, all, FaultFree) && all[0] == tr[0]
    ensures var s := Last(tr);
            Last(all) == Move(s, w, Calling(s.now, sess)).(lock := Some(s.now + c.lockTTL * SECOND))
  {
    var now := Last(tr).now;
    if Last(tr).workers[w] == Contend {
      all := Follow(c, FaultFree, tr, Obtain(w, Granted), w, Locked(now));
      all := Follow(c, FaultFree, all, Get(w, true), w, Reread(now, sess));
      all := Follow(c, FaultFree, all, Check(w), w, Calling(now, sess));
    } else {
      all := Follow(c, FaultFree, tr, Obtain(w, Granted), w, Calling(now, sess));
    }
  }

  lemma Finish(c: Config, tr: seq<State>, w: nat, refresh: string) returns (all: seq<State>)
    requires Path(c, tr, FaultFree) && w in Last(tr).workers && Last(tr).workers[w].Calling?
    requires refresh != "" && refresh !in Last(tr).issued
    ensures Path(c, all, FaultFree) && all[0] == tr[0]
    ensures Last(all) == AfterRound(Last(tr), w, Last(tr).workers[w].sess, refresh)
  {
    var s := Last(tr);
    var p := s.workers[w];
    AlwaysInTime(c, tr, FaultFree, |tr| - 1);
    var reply := Tokens("", refresh, "", 0);
    var renewed := Refreshed(p.sess, reply, s.now);
    all := Follow(c, FaultFree, tr, Present(w, reply), w, Answered(p.since, p.sess, reply));
    all := Follow(c, FaultFree, all, Compute(w), w, Writing(p.since, p.sess, renewed));
    all := Follow(c, FaultFree, all, Put(w, true, true), w, Releasing(p.since, Served(renewed, true)));
    all := Follow(c, FaultFree, all, Release(w, true), w, Returned(Served(renewed, true)));
  }

  /** A whole undisturbed critical section of worker w, the clock standing still. */
  lemma Round(c: Config, tr: seq<State>, w: nat, sess: Session, refresh: string) returns (all: seq<State>)
    requires c.lockTTL > 0 && Path(c, tr, FaultFree) && Poised(c, Last(tr), w, sess)
    requires refresh != "" && refresh !in Last(tr).issued
    ensures Path(c, all, FaultFree) && all[0] == tr[0] && Last(all) == AfterRound(Last(tr), w, sess, refresh)
  {
    all := Enter(c, tr, w, sess);
    all := Finish(c, all, w, refresh);
  }

  /** A worker started on a stored record comes to wait for the lock, or to hold its copy. */
  lemma Arrive(c: Config, tr: seq<State>, w: nat, role: Role) returns (all: seq<State>)
    requires Path(c, tr, FaultFree) && w !in Last(tr).workers && Last(tr).store.Some?
    requires Last(tr).store.value.refreshToken != "" && NeedsRefresh(c, Last(tr).store.value, Last(tr).now)
    ensures Path(c, all, FaultFree) && all[0] == tr[0]
    ensures var sess := Last(tr).store.value;
            Last(all) == Move(Last(tr), w, match role
                                           case EnsureFresh => Contend
                                           case RefreshEndpoint => RefreshContend(sess)
                                           case AttachTenant(tenant) => Attaching(sess.(tenant := tenant)))
  {
    var sess := Last(tr).store.value;
    match role
    case EnsureFresh => all := ArriveFresh(c, tr, w, sess);
    case RefreshEndpoint => all := ArriveEndpoint(c, tr, w, sess);
    case AttachTenant(tenant) =>
      all := Follow(c, FaultFree, tr, Spawn(w, role), w, AttachStart(tenant));
      all := Follow(c, FaultFree, all, Get(w, true), w, Attaching(sess.(tenant := tenant)));
      assert Last(all) == Move(Last(tr), w, Attaching(sess.(tenant := tenant)));
  }

  lemma ArriveFresh(c: Config, tr: seq<State>, w: nat, sess: Session) returns (all: seq<State>)
    requires Path(c, tr, FaultFree) && w !in Last(tr).workers && Last(tr).store == Some(sess)
    requires sess.refreshToken != "" && NeedsRefresh(c, sess, Last(tr).now)
    ensures Path(c, all, FaultFree) && all[0] == tr[0] && Last(all) == Move(Last(tr), w, Contend)
  {
    all := Follow(c, FaultFree, tr, Spawn(w, EnsureFresh), w, Start);
    all := Follow(c, FaultFree, all, Get(w, true), w, Read(sess));
    all := Follow(c, FaultFree, all, Check(w), w, Contend);
  }

  lemma ArriveEndpoint(c: Config, tr: seq<State>, w: nat, sess: Session) returns (all: seq<State>)
    requires Path(c, tr, FaultFree) && w !in Last(tr).workers && Last(tr).store == Some(sess)
    requires sess.refreshToken != "" && NeedsRefresh(c, sess, Last(tr).now)
    ensures Path(c, all, FaultFree) && all[0] == tr[0] && Last(all) == Move(Last(tr), w, RefreshContend(sess))
  {
    all := Follow(c, FaultFree, tr, Spawn(w, RefreshEndpoint), w, RefreshStart);
    all := Follow(c, FaultFree, all, Get(w, true), w, RefreshRead(sess));
    all := Follow(c, FaultFree, all, Check(w), w, RefreshContend(sess));
  }

  /** A start from which a session is due for refresh and the lock is free. */
  predicate DueForRefresh(c: Config, s: State) {
    && Init(s) && Free(s) && c.lockTTL > 0 && s.store.Some?
    && s.store.value.refreshToken != "" && NeedsRefresh(c, s.store.value, s.now)
  }

  lemma LoneEndpointLocks(c: Config, s: State, sess: Session) returns (tr: seq<State>)
    requires DueForRefresh(c, s) && s.store == Some(sess)
    ensures Path(c, tr, GuardedFaultFree) && tr[0] == s
    ensures Last(tr) == Move(s, 0, Calling(s.now, sess)).(lock := Some(s.now + c.lockTTL * SECOND))
  {
    tr := Follow(c, GuardedFaultFree, [s], Spawn(0, RefreshEndpoint), 0, RefreshStart);
    tr := Follow(c, GuardedFaultFree, tr, Get(0, true), 0, RefreshRead(sess));
    tr := Follow(c, GuardedFaultFree, tr, Check(0), 0, RefreshContend(sess));
    tr := Follow(c, GuardedFaultFree, tr, Obtain(0, Granted), 0, Calling(s.now, sess));
  }

  /** A single caller of the refresh endpoint stays within the guard and renews the session. */
  lemma LoneEndpointIsGuarded(c: Config, s: State, r: string) returns (tr: seq<State>)
    requires DueForRefresh(c, s) && r != "" && r !in s.issued
    ensures Run(c, tr, GuardedFaultFree) && tr[0] == s
    ensures |Last(tr).calls| == 1 && Last(tr).calls[0].prev == s.store.value
    ensures Last(tr).store.Some? && Renews(Last(tr).calls[0], s.now, Last(tr).store.value)
  {
    var sess, reply := s.store.value, Tokens("", r, "", 0);
    var renewed := Refreshed(sess, reply, s.now);
    tr := LoneEndpointLocks(c, s, sess);
    tr := Follow(c, GuardedFaultFree, tr, Present(0, reply), 0, Answered(s.now, sess, reply));
    tr := Follow(c, GuardedFaultFree, tr, Compute(0), 0, Writing(s.now, sess, renewed));
    tr := Follow(c, GuardedFaultFree, tr, Put(0, true, true), 0, Releasing(s.now, Served(renewed, true)));
  }

  /**
   Two callers of the refresh endpoint that read the record before either locked present the
   same token one after the other, without any fault, from every such start: the endpoint does
   not read again.
   */
  lemma RefreshEndpointReusesToken(c: Config, s: State, r1: string, r2: string) returns (tr: seq<State>)
    requires DueForRefresh(c, s)
    requires r1 != "" && r2 != "" && r1 != r2 && r1 !in s.issued && r2 !in s.issued
    ensures Run(c, tr, FaultFree) && tr[0] == s && !SingleUse(Last(tr))
  {
    var sess := s.store.value;
    tr := Arrive(c, [s], 0, RefreshEndpoint);
    tr := Arrive(c, tr, 1, RefreshEndpoint);
    tr := Round(c, tr, 0, sess, r1);
    tr := Round(c, tr, 1, sess, r2);
    assert Last(tr).calls[0].token == Last(tr).calls[1].token == sess.refreshToken;
  }

  lemma AttachAfterRefresh(c: Config, s: State, tenant: string, r1: string) returns (tr: seq<State>)
    requires DueForRefresh(c, s) && r1 != "" && r1 !in s.issued
    ensures Path(c, tr, FaultFree) && tr[0] == s
    ensures var copy := s.store.value.(tenant := tenant);
            && Poised(c, Last(tr), 2, copy) && Last(tr).issued == s.issued + {r1} && Last(tr).spoiled == {}
            && |Last(tr).calls| == 1 && Last(tr).calls[0].token == copy.refreshToken
  {
    var sess := s.store.value;
    var copy := sess.(tenant := tenant);
    tr := Arrive(c, [s], 0, EnsureFresh);
    tr := Arrive(c, tr, 1, AttachTenant(tenant));
    tr := Arrive(c, tr, 2, EnsureFresh);
    tr := Round(c, tr, 0, sess, r1);
    tr := Follow(c, FaultFree, tr, Put(1, true, true), 1, Returned(Served(copy, false)));
  }

  /**
   Attaching a tenant writes back the record it read earlier, without the lock. If a refresh
   happened in between, the old token returns to the store and the next caller presents it again.
   */
  lemma AttachTenantRestoresToken(c: Config, s: State, tenant: string, r1: string, r2: string) returns (tr: seq<State>)
    requires DueForRefresh(c, s)
    requires r1 != "" && r2 != "" && r1 != r2 && r1 !in s.issued && r2 !in s.issued
    ensures Run(c, tr, FaultFree) && tr[0] == s && !SingleUse(Last(tr))
  {
    var sess := s.store.value;
    var copy := sess.(tenant := tenant);
    tr := AttachAfterRefresh(c, s, tenant, r1);
    tr := Round(c, tr, 2, copy, r2);
    assert Last(tr).calls[0].token == Last(tr).calls[1].token == sess.refreshToken;
  }
}
