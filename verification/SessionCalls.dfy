/**
 Whole calls of one worker that nobody disturbs: for every luck with the stores, the lock and the
 IdP, what the call returns and what it leaves behind.
 */
module SessionCalls {
  import opened Clock
  import opened Options
  import opened SessionRefresh

  /** How each outside call of one worker turns out. */
  datatype Luck = Luck(read: bool, lock: LockAnswer, reread: bool, reply: Reply,
                       stored: bool, acked: bool, released: bool)

  /** The lock is free if it is granted, new tokens are new, and an acknowledged write took effect. */
  predicate Possible(s: State, l: Luck) {
    && (l.lock == Granted || l.lock == Errored(true) ==> Free(s))
    && (l.reply.Tokens? && l.reply.refresh != "" ==> l.reply.refresh !in s.issued)
    && (l.acked ==> l.stored)
  }

  /** The worker's next step. */
  function Turn(w: nat, p: Worker, l: Luck): Action
    requires !p.Returned?
  {
    match p
    case Start => Get(w, l.read)
    case RefreshStart => Get(w, l.read)
    case AttachStart(_) => Get(w, l.read)
    case Read(_) => Check(w)
    case RefreshRead(_) => Check(w)
    case Contend => Obtain(w, l.lock)
    case RefreshContend(_) => Obtain(w, l.lock)
    case Refused => Get(w, l.reread)
    case Locked(_) => Get(w, l.reread)
    case Reread(_, _) => Check(w)
    case Calling(_, _) => Present(w, l.reply)
    case Answered(_, _, _) => Compute(w)
    case Writing(_, _, _) => Put(w, l.stored, l.acked)
    case Attaching(_) => Put(w, l.stored, l.acked)
    case Releasing(_, _) => Release(w, l.released)
  }

  function StepsLeft(p: Worker): nat {
    match p
    case Start => 10
    case RefreshStart => 10
    case AttachStart(_) => 10
    case Read(_) => 9
    case RefreshRead(_) => 9
    case Contend => 8
    case RefreshContend(_) => 8
    case Refused => 7
    case Locked(_) => 7
    case Reread(_, _) => 6
    case Calling(_, _) => 5
    case Answered(_, _, _) => 4
    case Writing(_, _, _) => 3
    case Attaching(_) => 3
    case Releasing(_, _) => 2
    case Returned(_) => 0
  }

  function Next(c: Config, s: State, w: nat, l: Luck): State
    requires w in s.workers && !s.workers[w].Returned? && Enabled(s, Turn(w, s.workers[w], l))
  {
    Apply(c, s, Turn(w, s.workers[w], l))
  }

  /** The rest of the call, the clock standing still; a step that is not possible ends it. */
  function Alone(c: Config, s: State, w: nat, l: Luck): State
    requires w in s.workers
    decreases StepsLeft(s.workers[w])
  {
    if s.workers[w].Returned? || !Enabled(s, Turn(w, s.workers[w], l)) then s
    else
      StepsGoDown(c, s, w, l);
      Alone(c, Next(c, s, w, l), w, l)
  }

  lemma StepsGoDown(c: Config, s: State, w: nat, l: Luck)
    requires w in s.workers && !s.workers[w].Returned? && Enabled(s, Turn(w, s.workers[w], l))
    ensures var t := Next(c, s, w, l); w in t.workers && StepsLeft(t.workers[w]) < StepsLeft(s.workers[w])
  {
    if Critical(s.workers[w]) || s.workers[w].Attaching? {
      HolderGoesOn(c, s, w, l);
    } else {
      OthersGoOn(c, s, w, l);
    }
  }

  lemma HolderGoesOn(c: Config, s: State, w: nat, l: Luck)
    requires w in s.workers && (Critical(s.workers[w]) || s.workers[w].Attaching?)
    requires Enabled(s, Turn(w, s.workers[w], l))
    ensures var t := Next(c, s, w, l); w in t.workers && StepsLeft(t.workers[w]) < StepsLeft(s.workers[w])
  {
  }

  lemma OthersGoOn(c: Config, s: State, w: nat, l: Luck)
    requires w in s.workers && !Critical(s.workers[w]) && !s.workers[w].Attaching? && !s.workers[w].Returned?
    requires Enabled(s, Turn(w, s.workers[w], l))
    ensures var t := Next(c, s, w, l); w in t.workers && StepsLeft(t.workers[w]) < StepsLeft(s.workers[w])
  {
  }

  /** One turn of a call. */
  lemma OneTurn(c: Config, s: State, w: nat, l: Luck) returns (t: State)
    requires w in s.workers && !s.workers[w].Returned? && Enabled(s, Turn(w, s.workers[w], l))
    ensures w in t.workers && t == Next(c, s, w, l) && Alone(c, s, w, l) == Alone(c, t, w, l)
    ensures t.workers[w].Returned? ==> Alone(c, s, w, l) == t
  {
    StepsGoDown(c, s, w, l);
    t := Next(c, s, w, l);
  }

  /** The call has returned, and record and lock are as stated. */
  predicate Ends(t: State, w: nat, out: Outcome, store: Option<Session>, lock: Option<int>) {
    w in t.workers && t.workers[w] == Returned(out) && t.store == store && t.lock == lock
  }

  /** The record after a reply with tokens. */
  function Renewal(sess: Session, r: Reply, now: int): Session
    requires r.Tokens?
  {
    Session(r.access,
            if r.refresh != "" then r.refresh else sess.refreshToken,
            if r.id != "" then r.id else sess.idToken,
            Unix(now) + (if r.expiresIn <= 0 then 3600 else r.expiresIn),
            sess.tenant)
  }

  lemma RefreshedIsRenewal(sess: Session, r: Reply, now: int)
    requires r.Tokens?
    ensures Refreshed(sess, r, now) == Renewal(sess, r, now)
  {
    assert Unix(now + 3600 * SECOND) == Unix(now) + 3600;
  }

  predicate IsStale(c: Config, sess: Session, now: int) {
    sess.refreshToken != "" && sess.expiresAt <= Unix(now) + c.refreshEarly
  }

  // ---------------------------------------------------------------- the critical section

  lemma ReleasingCall(c: Config, s: State, w: nat, l: Luck)
    requires w in s.workers && s.workers[w].Releasing?
    ensures Ends(Alone(c, s, w, l), w, s.workers[w].out, s.store, if l.released then None else s.lock)
  {
    var t := OneTurn(c, s, w, l);
  }

  lemma WritingCall(c: Config, s: State, w: nat, l: Luck)
    requires w in s.workers && s.workers[w].Writing? && (l.acked ==> l.stored)
    ensures var sess := s.workers[w].sess;
            Ends(Alone(c, s, w, l), w, if l.acked then Served(sess, true) else StoreFailed,
                 if l.stored then Some(sess) else s.store, if l.released then None else s.lock)
  {
    var t := OneTurn(c, s, w, l);
    ReleasingCall(c, t, w, l);
  }

  /** From the call to the IdP on. */
  lemma CriticalCall(c: Config, s: State, w: nat, l: Luck, since: int, sess: Session)
    requires w in s.workers && s.workers[w] == Calling(since, sess) && (l.acked ==> l.stored)
    requires l.reply.Tokens? && l.reply.refresh != "" ==> l.reply.refresh !in s.issued
    ensures var t := Alone(c, s, w, l);
            var left := if l.released then None else s.lock;
            if l.reply.Denied? then Ends(t, w, RefreshFailed, s.store, left)
            else
              var renewed := Renewal(sess, l.reply, s.now);
              Ends(t, w, if l.acked then Served(renewed, true) else StoreFailed,
                   if l.stored then Some(renewed) else s.store, left)
  {
    var t := OneTurn(c, s, w, l);
    if l.reply.Tokens? {
      RefreshedIsRenewal(sess, l.reply, s.now);
      t := OneTurn(c, t, w, l);
      WritingCall(c, t, w, l);
    } else {
      ReleasingCall(c, t, w, l);
    }
  }

  /** From obtaining the lock on: the record is read again and may be gone, fresh, or due. */
  lemma LockedCall(c: Config, s: State, w: nat, l: Luck, since: int)
    requires w in s.workers && s.workers[w] == Locked(since) && (l.acked ==> l.stored)
    requires l.reply.Tokens? && l.reply.refresh != "" ==> l.reply.refresh !in s.issued
    ensures var t := Alone(c, s, w, l);
            var left := if l.released then None else s.lock;
            if !l.reread || s.store.None? then Ends(t, w, NotFound, s.store, left)
            else if !IsStale(c, s.store.value, s.now) then Ends(t, w, Served(s.store.value, false), s.store, left)
            else if l.reply.Denied? then Ends(t, w, RefreshFailed, s.store, left)
            else
              var renewed := Renewal(s.store.value, l.reply, s.now);
              Ends(t, w, if l.acked then Served(renewed, true) else StoreFailed,
                   if l.stored then Some(renewed) else s.store, left)
  {
    var t := OneTurn(c, s, w, l);
    if l.reread && s.store.Some? {
      t := OneTurn(c, t, w, l);
    }
    if t.workers[w].Calling? {
      CriticalCall(c, t, w, l, since, s.store.value);
    } else {
      ReleasingCall(c, t, w, l);
    }
  }

  // ---------------------------------------------------------------- the three operations

  /** What an ensureFresh call nobody disturbs returns and leaves behind. */
  lemma EnsureFreshCall(c: Config, s: State, w: nat, l: Luck)
    requires w in s.workers && s.workers[w] == Start && Possible(s, l)
    ensures var t := Alone(c, s, w, l);
            var until := Some(s.now + c.lockTTL * SECOND);
            if !l.read || s.store.None? then Ends(t, w, NotFound, s.store, s.lock)
            else
              var sess := s.store.value;
              if !IsStale(c, sess, s.now) then Ends(t, w, Served(sess, false), s.store, s.lock)
              else if l.lock.Errored? then Ends(t, w, LockError, s.store, if l.lock.took then until else s.lock)
              else if l.lock.Busy? then
                Ends(t, w, if l.reread then Served(sess, false) else NotFound, s.store, s.lock)
              else
                var left := if l.released then None else until;
                if !l.reread then Ends(t, w, NotFound, s.store, left)
                else if l.reply.Denied? then Ends(t, w, RefreshFailed, s.store, left)
                else
                  var renewed := Renewal(sess, l.reply, s.now);
                  Ends(t, w, if l.acked then Served(renewed, true) else StoreFailed,
                       if l.stored then Some(renewed) else s.store, left)
  {
    var t := OneTurn(c, s, w, l);
    if l.read && s.store.Some? {
      t := OneTurn(c, t, w, l);
      if IsStale(c, s.store.value, s.now) {
        ContendingCall(c, t, w, l);
      }
    }
  }

  lemma ContendingCall(c: Config, s: State, w: nat, l: Luck)
    requires w in s.workers && s.workers[w] == Contend && Possible(s, l)
    requires s.store.Some? && IsStale(c, s.store.value, s.now)
    ensures var t := Alone(c, s, w, l);
            var sess, until := s.store.value, Some(s.now + c.lockTTL * SECOND);
            if l.lock.Errored? then Ends(t, w, LockError, s.store, if l.lock.took then until else s.lock)
            else if l.lock.Busy? then
              Ends(t, w, if l.reread then Served(sess, false) else NotFound, s.store, s.lock)
            else
              var left := if l.released then None else until;
              if !l.reread then Ends(t, w, NotFound, s.store, left)
              else if l.reply.Denied? then Ends(t, w, RefreshFailed, s.store, left)
              else
                var renewed := Renewal(sess, l.reply, s.now);
                Ends(t, w, if l.acked then Served(renewed, true) else StoreFailed,
                     if l.stored then Some(renewed) else s.store, left)
  {
    var t := OneTurn(c, s, w, l);
    if l.lock.Busy? {
      t := OneTurn(c, t, w, l);
    } else if l.lock.Granted? {
      LockedCall(c, t, w, l, s.now);
    }
  }

  /** The same for the refresh endpoint, which does not read again and is content without the lock. */
  lemma RefreshEndpointCall(c: Config, s: State, w: nat, l: Luck)
    requires w in s.workers && s.workers[w] == RefreshStart && Possible(s, l)
    ensures var t := Alone(c, s, w, l);
            var until := Some(s.now + c.lockTTL * SECOND);
            if !l.read || s.store.None? then Ends(t, w, NotFound, s.store, s.lock)
            else
              var sess := s.store.value;
              if sess.refreshToken == "" then Ends(t, w, NoRefreshToken, s.store, s.lock)
              else if !IsStale(c, sess, s.now) then Ends(t, w, Served(sess, false), s.store, s.lock)
              else if l.lock.Errored? then
                Ends(t, w, Served(sess, false), s.store, if l.lock.took then until else s.lock)
              else if l.lock.Busy? then Ends(t, w, Served(sess, false), s.store, s.lock)
              else
                var left := if l.released then None else until;
                if l.reply.Denied? then Ends(t, w, RefreshFailed, s.store, left)
                else
                  var renewed := Renewal(sess, l.reply, s.now);
                  Ends(t, w, if l.acked then Served(renewed, true) else StoreFailed,
                       if l.stored then Some(renewed) else s.store, left)
  {
    var t := OneTurn(c, s, w, l);
    if l.read && s.store.Some? {
      t := OneTurn(c, t, w, l);
      if IsStale(c, s.store.value, s.now) {
        EndpointContends(c, t, w, l, s.store.value);
      }
    }
  }

  lemma EndpointContends(c: Config, s: State, w: nat, l: Luck, sess: Session)
    requires w in s.workers && s.workers[w] == RefreshContend(sess) && Possible(s, l)
    ensures var t := Alone(c, s, w, l);
            var until := Some(s.now + c.lockTTL * SECOND);
            if l.lock.Errored? then Ends(t, w, Served(sess, false), s.store, if l.lock.took then until else s.lock)
            else if l.lock.Busy? then Ends(t, w, Served(sess, false), s.store, s.lock)
            else
              var left := if l.released then None else until;
              if l.reply.Denied? then Ends(t, w, RefreshFailed, s.store, left)
              else
                var renewed := Renewal(sess, l.reply, s.now);
                Ends(t, w, if l.acked then Served(renewed, true) else StoreFailed,
                     if l.stored then Some(renewed) else s.store, left)
  {
    var t := OneTurn(c, s, w, l);
    if l.lock.Granted? {
      CriticalCall(c, t, w, l, s.now, sess);
    }
  }

  /** Attaching a tenant changes the tenant of the record and nothing else, and takes no lock. */
  lemma AttachTenantCall(c: Config, s: State, w: nat, l: Luck, tenant: string)
    requires w in s.workers && s.workers[w] == AttachStart(tenant) && Possible(s, l)
    ensures var t := Alone(c, s, w, l);
            if !l.read || s.store.None? then Ends(t, w, NotFound, s.store, s.lock)
            else
              var x := s.store.value;
              var attached := Session(x.accessToken, x.refreshToken, x.idToken, x.expiresAt, tenant);
              Ends(t, w, if l.acked then Served(attached, false) else StoreFailed,
                   if l.stored then Some(attached) else s.store, s.lock)
  {
    var t := OneTurn(c, s, w, l);
    if l.read && s.store.Some? {
      t := OneTurn(c, t, w, l);
    }
  }
}
