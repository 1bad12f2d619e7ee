/**
 Removing a session record, by logout or at the end of its time to live, while workers refresh
 it: the removal takes no lock, and a worker that has read the record writes it back.
 */
module SessionRemoval {
  import opened Clock
  import opened Options
  import opened SessionRefresh
  import opened Traces

  /** Has read a record and will, or may, write it or its renewal. */
  predicate Carrier(p: Worker) {
    match p
    case RefreshRead(sess) => sess.refreshToken != ""
    case RefreshContend(_) => true
    case Reread(_, sess) => sess.refreshToken != ""
    case Calling(_, _) => true
    case Answered(_, _, reply) => reply.Tokens?
    case Writing(_, _, _) => true
    case Attaching(_) => true
    case _ => false
  }

  predicate Anything(s: State, a: Action) {
    true
  }

  /** Any steps at all, also past the lifetime of a lock. */
  ghost function AnySteps(c: Config): (State, State) -> bool {
    (s, t) => Next(c, s, t, Anything)
  }

  ghost predicate NoCarrier(s: State) {
    forall w :: w in s.workers ==> !Carrier(s.workers[w])
  }

  lemma StepKeepsRemoved(c: Config, s: State, a: Action)
    requires Enabled(s, a) && s.store == None && NoCarrier(s)
    ensures Apply(c, s, a).store == None && NoCarrier(Apply(c, s, a))
  {
    var t := Apply(c, s, a);
    if !a.Tick? && !a.DropSession? {
      MovesUncarried(c, s, a);
      forall w | w in t.workers ensures !Carrier(t.workers[w]) {
        assert w != a.w ==> t.workers[w] == s.workers[w];
      }
    }
  }

  lemma MovesUncarried(c: Config, s: State, a: Action)
    requires Enabled(s, a) && s.store == None && !a.Tick? && !a.DropSession?
    requires a.w in s.workers ==> !Carrier(s.workers[a.w])
    ensures var t := Apply(c, s, a);
            && t.store == None && a.w in t.workers
            && t.workers == s.workers[a.w := t.workers[a.w]] && !Carrier(t.workers[a.w])
  {
  }

  lemma {:induction false} StaysRemoved(c: Config, tr: seq<State>, i: nat)
    requires Chain(AnySteps(c), tr) && i < |tr| && tr[0].store == None && NoCarrier(tr[0])
    ensures tr[i].store == None && NoCarrier(tr[i])
  {
    if i > 0 {
      StaysRemoved(c, tr, i - 1);
      StepInto(AnySteps(c), tr, i);
      var a :| Anything(tr[i - 1], a) && Enabled(tr[i - 1], a) && tr[i] == Apply(c, tr[i - 1], a);
      StepKeepsRemoved(c, tr[i - 1], a);
    }
  }

  lemma Go(c: Config, tr: seq<State>, a: Action) returns (longer: seq<State>)
    requires Chain(AnySteps(c), tr) && Enabled(Last(tr), a)
    ensures Chain(AnySteps(c), longer) && longer[0] == tr[0] && Last(longer) == Apply(c, Last(tr), a)
  {
    var t := Apply(c, Last(tr), a);
    assert Anything(Last(tr), a) && Next(c, Last(tr), t, Anything);
    longer := tr + [t];
    Extend(AnySteps(c), tr, t);
  }

  /** Time passes until an instant. */
  lemma Wait(c: Config, tr: seq<State>, until: int) returns (longer: seq<State>)
    requires Chain(AnySteps(c), tr)
    ensures Chain(AnySteps(c), longer) && longer[0] == tr[0]
    ensures Last(longer) == Last(tr).(now := Last(longer).now) && Last(longer).now >= until
  {
    longer := Go(c, tr, Tick(if until > Last(tr).now then until - Last(tr).now else 0));
  }

  lemma WaitUntilStale(c: Config, tr: seq<State>, sess: Session) returns (longer: seq<State>)
    requires Chain(AnySteps(c), tr)
    ensures Chain(AnySteps(c), longer) && longer[0] == tr[0]
    ensures Last(longer) == Last(tr).(now := Last(longer).now) && NeedsRefresh(c, sess, Last(longer).now)
  {
    var due := sess.expiresAt - c.refreshEarly;
    longer := Wait(c, tr, due * SECOND);
    UnixBounds(due * SECOND, Last(longer).now, due - 1);
  }

  /** A worker that is to call the IdP can go on to write. */
  lemma CallerWrites(c: Config, tr: seq<State>, w: nat) returns (longer: seq<State>)
    requires Chain(AnySteps(c), tr) && w in Last(tr).workers
    requires var p := Last(tr).workers[w]; p.Calling? || (p.Answered? && p.reply.Tokens?) || p.Writing? || p.Attaching?
    ensures Chain(AnySteps(c), longer) && longer[0] == tr[0] && Last(longer).store.Some?
  {
    longer := tr;
    if Last(longer).workers[w].Calling? {
      longer := Go(c, longer, Present(w, Tokens("", "", "", 0)));
    }
    if Last(longer).workers[w].Answered? {
      longer := Go(c, longer, Compute(w));
    }
    longer := Go(c, longer, Put(w, true, true));
  }

  /** And one that has only read can come to call it. */
  lemma CarrierWrites(c: Config, tr: seq<State>, w: nat) returns (longer: seq<State>)
    requires Chain(AnySteps(c), tr) && w in Last(tr).workers && Carrier(Last(tr).workers[w])
    ensures Chain(AnySteps(c), longer) && longer[0] == tr[0] && Last(longer).store.Some?
  {
    longer := tr;
    if Last(longer).workers[w].RefreshRead? || Last(longer).workers[w].Reread? {
      longer := WaitUntilStale(c, longer, Last(longer).workers[w].sess);
      longer := Go(c, longer, Check(w));
    }
    if Last(longer).workers[w].RefreshContend? {
      longer := Wait(c, longer, if Last(longer).lock.Some? then Last(longer).lock.value else 0);
      longer := Go(c, longer, Obtain(w, Granted));
    }
    longer := CallerWrites(c, longer, w);
  }

  ghost predicate Returns(c: Config, s: State) {
    exists tr :: Chain(AnySteps(c), tr) && tr[0] == s && Last(tr).store.Some?
  }

  /**
   A record removed by logout or by its time to live comes back if and only if some worker stands
   between its read of the record and its write. Workers that start later find nothing.
   */
  lemma RecordReturnsIffCarried(c: Config, s: State)
    requires s.store == None
    ensures Returns(c, s) <==> exists w :: w in s.workers && Carrier(s.workers[w])
  {
    if w :| w in s.workers && Carrier(s.workers[w]) {
      var tr := CarrierWrites(c, [s], w);
    } else {
      forall tr | Chain(AnySteps(c), tr) && tr[0] == s ensures Last(tr).store == None {
        StaysRemoved(c, tr, |tr| - 1);
      }
    }
  }

  /** It happens with one worker of ensureFresh and no fault, from every start: the removal is undone. */
  lemma RefreshRestoresRemovedRecord(c: Config, s: State, r: string) returns (before: seq<State>, after: seq<State>)
    requires DueForRefresh(c, s) && r != "" && r !in s.issued
    ensures Run(c, before, FaultFree) && before[0] == s && Last(before).store == None
    ensures Path(c, after, FaultFree) && after[0] == Last(before) && StillStored(Last(after), r)
  {
    var sess := s.store.value;
    before := Arrive(c, [s], 0, EnsureFresh);
    before := Enter(c, before, 0, sess);
    before := Follow(c, FaultFree, before, DropSession, 0, Calling(s.now, sess));
    AlwaysInTime(c, before, FaultFree, |before| - 1);
    after := Finish(c, [Last(before)], 0, r);
  }
}
