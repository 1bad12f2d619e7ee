/**
 One-time handoff tickets. A ticket carries its expiry in whole seconds; redeeming it leaves a
 replay record behind that lives for a sub-second time computed from that expiry. The module
 runs any number of redemptions against one replay store, step by step.
 */
module Handoff {
  import opened Clock
  import opened Traces

  datatype Ticket = Ticket(connectorID: string, authoritativeID: string, sessionRef: string,
                           issuedAt: int, expiresAt: int, jti: string)

  const DEFAULT_TTL := 120 * SECOND

  function EffectiveTTL(ttl: int): int {
    if ttl <= 0 then DEFAULT_TTL else ttl
  }

  function IssuedAt(now: int, connectorID: string, authID: string, sessionRef: string, jti: string, ttl: int): Ticket {
    Ticket(connectorID, authID, sessionRef, Unix(now), Unix(now + EffectiveTTL(ttl)), jti)
  }

  /** The first instant at which the ticket counts as expired. */
  function Boundary(t: Ticket): int {
    (t.expiresAt + 1) * SECOND
  }

  /** Until this instant the replay record of a redemption is sure to be there. */
  function SafeUntil(s: State, t: Ticket): int {
    Boundary(t) - (s.grain - 1)
  }

  /** A redemption between two of its steps. */
  datatype Attempt =
    | Received(t: Ticket)
    | Verified(t: Ticket, verifiedAt: int)
    | Measured(t: Ticket, verifiedAt: int, ttl: int)
    | Finished(redeemed: bool)

  /** A successful redemption, with the ticket handed out. */
  datatype Win = Win(t: Ticket, verifiedAt: int, at: int)

  /** What the caller of Issue asked for, and when. */
  datatype Request = Request(connectorID: string, authID: string, sessionRef: string, ttl: int, at: int)

  /**
   issued, requests and wins are history. `records` maps a ticket id to the instant its replay record expires;
   the store rounds lifetimes down and loses less than `grain` of them (one: nothing).
   */
  datatype State = State(
    grain: nat,
    now: int,
    issued: map<string, Ticket>,
    requests: map<string, Request>,
    records: map<string, int>,
    attempts: map<nat, Attempt>,
    wins: seq<Win>)

  datatype Answer = Answered | Failed(took: bool)

  datatype Action =
    | Tick(dt: nat)
    | Issue(connectorID: string, authID: string, sessionRef: string, jti: string, ttl: int)
    | Present(w: nat, t: Ticket)
    | Verify(w: nat)
    | Measure(w: nat)
    | Consume(w: nat, answer: Answer, lost: nat)

  /** Only signed tickets verify, and only issuing signs. */
  predicate Genuine(s: State, t: Ticket) {
    t.jti in s.issued && s.issued[t.jti] == t
  }

  predicate FirstUse(s: State, jti: string) {
    jti in s.records ==> s.records[jti] <= s.now
  }

  /** The caller supplies a ticket id that was never used before. */
  predicate Enabled(s: State, a: Action) {
    match a
    case Tick(_) => true
    case Issue(_, _, _, jti, _) => jti !in s.issued
    case Present(w, _) => w !in s.attempts || s.attempts[w].Finished?
    case Verify(w) => w in s.attempts && s.attempts[w].Received?
    case Measure(w) => w in s.attempts && s.attempts[w].Verified?
    case Consume(w, answer, lost) =>
      && lost < s.grain
      && w in s.attempts && s.attempts[w].Measured?
      && (answer == Failed(true) ==> FirstUse(s, s.attempts[w].t.jti))
  }

  function Move(s: State, w: nat, p: Attempt): State {
    s.(attempts := s.attempts[w := p])
  }

  /** How long the replay record is to live, measured at instant `now`. */
  function RecordTTL(t: Ticket, now: int): int {
    var ttl := t.expiresAt * SECOND - now + SECOND;
    if ttl <= 0 then SECOND else ttl
  }

  function AfterConsume(s: State, w: nat, answer: Answer, lost: nat): State
    requires w in s.attempts && s.attempts[w].Measured?
  {
    var p := s.attempts[w];
    var first := FirstUse(s, p.t.jti);
    var recorded := s.records[p.t.jti := s.now + p.ttl - lost];
    match answer
    case Failed(took) => Move(s, w, Finished(false)).(records := if took then recorded else s.records)
    case Answered =>
      if first then
        Move(s, w, Finished(true)).(records := recorded, wins := s.wins + [Win(p.t, p.verifiedAt, s.now)])
      else Move(s, w, Finished(false))
  }

  function Apply(s: State, a: Action): State
    requires Enabled(s, a)
  {
    match a
    case Tick(dt) => s.(now := s.now + dt)
    case Issue(c, auth, ref, jti, ttl) =>
      if ref == "" || jti == "" then s
      else s.(issued := s.issued[jti := IssuedAt(s.now, c, auth, ref, jti, ttl)],
              requests := s.requests[jti := Request(c, auth, ref, ttl, s.now)])
    case Present(w, t) => Move(s, w, Received(t))
    case Verify(w) =>
      var t := s.attempts[w].t;
      Move(s, w, if Genuine(s, t) && Unix(s.now) <= t.expiresAt then Verified(t, s.now) else Finished(false))
    case Measure(w) =>
      var p := s.attempts[w];
      Move(s, w, Measured(p.t, p.verifiedAt, RecordTTL(p.t, s.now)))
    case Consume(w, answer, lost) => AfterConsume(s, w, answer, lost)
  }

  predicate Init(s: State) {
    && s.grain >= 1 && s.issued == map[] && s.requests == map[]
    && s.records == map[] && s.attempts == map[] && s.wins == []
  }

  ghost predicate Next(s: State, t: State) {
    exists a :: Enabled(s, a) && t == Apply(s, a)
  }

  ghost function Steps(): (State, State) -> bool {
    (s, t) => Next(s, t)
  }

  ghost predicate Run(tr: seq<State>) {
    Chain(Steps(), tr) && Init(tr[0])
  }

  // ---------------------------------------------------------------- invariant

  ghost predicate AttemptInv(s: State, p: Attempt) {
    match p
    case Verified(t, at) => Genuine(s, t) && at < Boundary(t) && at <= s.now
    case Measured(t, at, ttl) =>
      Genuine(s, t) && at < Boundary(t) && at <= s.now && ttl > 0 && s.now + ttl >= Boundary(t)
    case _ => true
  }

  /** The record of a redemption outlives every instant at which the ticket still verifies. */
  ghost predicate WinInv(s: State, w: Win) {
    && Genuine(s, w.t) && w.verifiedAt < Boundary(w.t) && w.verifiedAt <= w.at <= s.now
    && w.t.jti in s.records && (w.at < SafeUntil(s, w.t) ==> s.records[w.t.jti] >= SafeUntil(s, w.t))
  }

  /** A second redemption of a ticket can only be one that consumed past the boundary. */
  ghost predicate RepeatsAreLate(s: State) {
    forall i, j :: 0 <= i < j < |s.wins| && s.wins[i].t.jti == s.wins[j].t.jti ==>
      s.wins[j].at >= SafeUntil(s, s.wins[j].t)
  }

  /** The ticket says what was asked for, from when on, and until when: two minutes if no time was given. */
  predicate Honours(t: Ticket, r: Request, jti: string) {
    && t.connectorID == r.connectorID && t.authoritativeID == r.authID && t.sessionRef == r.sessionRef
    && t.jti == jti && t.issuedAt == Unix(r.at)
    && t.expiresAt == Unix(r.at + if r.ttl <= 0 then 120 * SECOND else r.ttl)
  }

  ghost predicate Inv(s: State) {
    && (forall w :: w in s.attempts ==> AttemptInv(s, s.attempts[w]))
    && (forall i :: 0 <= i < |s.wins| ==> WinInv(s, s.wins[i]))
    && (forall j :: j in s.issued ==> j in s.requests && Honours(s.issued[j], s.requests[j], j))
    && RepeatsAreLate(s)
  }

  lemma StepKeepsInv(s: State, a: Action)
    requires Inv(s) && Enabled(s, a)
    ensures Inv(Apply(s, a))
  {
    match a
    case Issue(c, auth, ref, jti, ttl) => IssueKeepsInv(s, c, auth, ref, jti, ttl);
    case Consume(w, answer, lost) => ConsumeKeepsInv(s, w, answer, lost);
    case _ => OthersKeepInv(s, a);
  }

  lemma IssueKeepsInv(s: State, c: string, auth: string, ref: string, jti: string, ttl: int)
    requires Inv(s) && Enabled(s, Issue(c, auth, ref, jti, ttl))
    ensures Inv(Apply(s, Issue(c, auth, ref, jti, ttl)))
  {
    var t := Apply(s, Issue(c, auth, ref, jti, ttl));
    assert forall x :: Genuine(s, x) ==> Genuine(t, x);
  }

  lemma OthersKeepInv(s: State, a: Action)
    requires Inv(s) && Enabled(s, a) && !a.Issue? && !a.Consume?
    ensures Inv(Apply(s, a))
  {
    var t := Apply(s, a);
    if a.Verify? {
      UnixBounds(s.now, s.now, s.attempts[a.w].t.expiresAt);
    }
    forall w | w in t.attempts ensures AttemptInv(t, t.attempts[w]) {
      assert w in s.attempts ==> AttemptInv(s, s.attempts[w]);
    }
    assert forall i :: 0 <= i < |s.wins| ==> WinInv(s, s.wins[i]);
  }

  lemma ConsumeKeepsInv(s: State, w: nat, answer: Answer, lost: nat)
    requires Inv(s) && Enabled(s, Consume(w, answer, lost))
    ensures Inv(AfterConsume(s, w, answer, lost))
  {
    var t := AfterConsume(s, w, answer, lost);
    var p := s.attempts[w];
    assert AttemptInv(s, p);
    forall i | 0 <= i < |t.wins| ensures WinInv(t, t.wins[i]) {
      assert i < |s.wins| ==> WinInv(s, s.wins[i]);
    }
    forall i, j | 0 <= i < j < |t.wins| && t.wins[i].t.jti == t.wins[j].t.jti
      ensures t.wins[j].at >= SafeUntil(t, t.wins[j].t)
    {
      assert WinInv(s, s.wins[i]);
    }
  }

  lemma {:induction false} RunKeepsInv(tr: seq<State>, i: nat)
    requires Run(tr) && i < |tr|
    ensures Inv(tr[i])
  {
    if i > 0 {
      RunKeepsInv(tr, i - 1);
      StepInto(Steps(), tr, i);
      var a :| Enabled(tr[i - 1], a) && tr[i] == Apply(tr[i - 1], a);
      StepKeepsInv(tr[i - 1], a);
    }
  }

  // ---------------------------------------------------------------- theorems

  /**
   At most one redemption per ticket succeeds, unless a later one passed the expiry check before
   the boundary and reached the replay store only after the record may have gone.
   */
  lemma SecondRedemptionStalled(tr: seq<State>, n: nat, i: nat, j: nat)
    requires Run(tr) && n < |tr| && i < j < |tr[n].wins| && tr[n].wins[i].t.jti == tr[n].wins[j].t.jti
    ensures var w := tr[n].wins[j]; w.verifiedAt < Boundary(w.t) && SafeUntil(tr[n], w.t) <= w.at
  {
    RunKeepsInv(tr, n);
    assert WinInv(tr[n], tr[n].wins[j]);
  }

  /** If every attempt consumes before second expiresAt + 1, less the rounding, no ticket is redeemed twice. */
  lemma RedeemedAtMostOnce(tr: seq<State>, n: nat, i: nat, j: nat)
    requires Run(tr) && n < |tr| && i < |tr[n].wins| && j < |tr[n].wins|
    requires forall k :: 0 <= k < |tr[n].wins| ==>
               tr[n].wins[k].at < (tr[n].wins[k].t.expiresAt + 1) * SECOND - (tr[n].grain - 1)
    requires tr[n].wins[i].t.jti == tr[n].wins[j].t.jti
    ensures i == j
  {
    if i < j {
      SecondRedemptionStalled(tr, n, i, j);
    } else if j < i {
      SecondRedemptionStalled(tr, n, j, i);
    }
  }

  /**
   What a redemption hands out is what some Issue call was asked for, field by field, verified before
   its expiry second was over.
   */
  lemma RedeemedIsIssued(tr: seq<State>, n: nat, i: nat)
    requires Run(tr) && n < |tr| && i < |tr[n].wins|
    ensures var w := tr[n].wins[i];
            && w.t.jti in tr[n].requests && Honours(w.t, tr[n].requests[w.t.jti], w.t.jti)
            && Unix(w.verifiedAt) <= w.t.expiresAt
  {
    RunKeepsInv(tr, n);
    assert WinInv(tr[n], tr[n].wins[i]);
    UnixBounds(tr[n].wins[i].verifiedAt, 0, tr[n].wins[i].t.expiresAt);
  }

  /** Issuing puts in force exactly the ticket asked for, or nothing without a session and a ticket id. */
  lemma IssueCall(s: State, connectorID: string, authID: string, sessionRef: string, jti: string, ttl: int)
    requires Enabled(s, Issue(connectorID, authID, sessionRef, jti, ttl))
    ensures var t := Apply(s, Issue(connectorID, authID, sessionRef, jti, ttl));
            if sessionRef == "" || jti == "" then t == s
            else
              && t.issued == s.issued[jti := Ticket(connectorID, authID, sessionRef, Unix(s.now),
                   Unix(s.now + if ttl <= 0 then 120 * SECOND else ttl), jti)]
              && t.requests == s.requests[jti := Request(connectorID, authID, sessionRef, ttl, s.now)]
              && t.records == s.records && t.attempts == s.attempts && t.wins == s.wins
  {
  }

  /** The replay record is to live to the end of the ticket's last second, or for a second if that is over. */
  lemma RecordOutlivesTicket(t: Ticket, now: int)
    ensures RecordTTL(t, now) ==
            if now >= (t.expiresAt + 1) * SECOND then SECOND else (t.expiresAt + 1) * SECOND - now
  {
  }

  /** How a redemption that nobody disturbs turns out. */
  function RedeemAlone(s: State, w: nat, answer: Answer, lost: nat): State
    requires w in s.attempts && s.attempts[w].Received?
    requires lost < s.grain && (answer == Failed(true) ==> FirstUse(s, s.attempts[w].t.jti))
  {
    var verified := Apply(s, Verify(w));
    if verified.attempts[w].Finished? then verified
    else Apply(Apply(verified, Measure(w)), Consume(w, answer, lost))
  }

  /**
   It succeeds exactly if the ticket is genuine, not expired, without a live replay record, and the
   store answers; then a record is left until the ticket's last second is over.
   */
  lemma RedeemCall(s: State, w: nat, answer: Answer, lost: nat)
    requires w in s.attempts && s.attempts[w].Received?
    requires lost < s.grain && (answer == Failed(true) ==> FirstUse(s, s.attempts[w].t.jti))
    ensures var t := s.attempts[w].t;
            var end := RedeemAlone(s, w, answer, lost);
            var valid := t.jti in s.issued && s.issued[t.jti] == t && Unix(s.now) <= t.expiresAt;
            var unused := !(t.jti in s.records && s.records[t.jti] > s.now);
            && w in end.attempts && end.attempts[w] == Finished(valid && unused && answer.Answered?)
            && end.wins == s.wins + (if valid && unused && answer.Answered? then [Win(t, s.now, s.now)] else [])
            && end.records == (if valid && (if answer.Answered? then unused else answer.took)
                               then s.records[t.jti := (t.expiresAt + 1) * SECOND - lost] else s.records)
  {
    UnixBounds(s.now, s.now, s.attempts[w].t.expiresAt);
  }

  /** A second attempt that measured in time and consumes dt after the first one succeeds once the record is gone. */
  lemma SecondConsumeAtBoundary(s: State, w: nat, v: nat, dt: nat, lost: nat)
    requires w in s.attempts && v in s.attempts && w != v && s.attempts[w].Verified? && s.attempts[v].Measured?
    requires s.attempts[w].t == s.attempts[v].t && FirstUse(s, s.attempts[w].t.jti)
    requires s.now < Boundary(s.attempts[w].t) && lost < s.grain
    ensures var t := s.attempts[w].t;
            var once := Apply(Apply(s, Measure(w)), Consume(w, Answered, lost));
            var twice := Apply(Apply(once, Tick(dt)), Consume(v, Answered, lost));
            && once.attempts[w] == Finished(true) && |once.wins| == |s.wins| + 1
            && |twice.wins| == |once.wins| + if s.now + dt >= Boundary(t) - lost then 1 else 0
  {
  }

  lemma Follow(tr: seq<State>, a: Action) returns (longer: seq<State>)
    requires Run(tr) && Enabled(Last(tr), a)
    ensures Run(longer) && longer[0] == tr[0] && Last(longer) == Apply(Last(tr), a)
  {
    assert Next(Last(tr), Apply(Last(tr), a));
    longer := tr + [Apply(Last(tr), a)];
    Extend(Steps(), tr, Apply(Last(tr), a));
  }

  /** A ticket is issued and two attempts to redeem it pass the expiry check. */
  lemma BothVerify(s: State, connectorID: string, authID: string, sessionRef: string, jti: string, ttl: int)
    returns (tr: seq<State>, t: Ticket)
    requires Init(s) && sessionRef != "" && jti != ""
    ensures t == Ticket(connectorID, authID, sessionRef, Unix(s.now),
                        Unix(s.now + if ttl <= 0 then 120 * SECOND else ttl), jti)
    ensures Run(tr) && tr[0] == s
    ensures Last(tr) == State(s.grain, s.now, map[jti := t],
                              map[jti := Request(connectorID, authID, sessionRef, ttl, s.now)], map[],
                              map[0 := Verified(t, s.now), 1 := Verified(t, s.now)], [])
  {
    UnixBounds(s.now, s.now + EffectiveTTL(ttl), 0);
    tr := Follow([s], Issue(connectorID, authID, sessionRef, jti, ttl));
    t := Last(tr).issued[jti];
    tr := Follow(tr, Present(0, t));
    tr := Follow(tr, Present(1, t));
    tr := Follow(tr, Verify(0));
    tr := Follow(tr, Verify(1));
  }

  /**
   The boundary is exact. From every start and for every ticket asked for: of two attempts that pass
   the expiry check at once, one that redeems and one that reaches the store dt later, both succeed
   exactly when that is past the last second of the time given, less what the store lost of it.
   */
  lemma BoundaryIsExact(s: State, connectorID: string, authID: string, sessionRef: string, jti: string, ttl: int,
                        dt: nat, lost: nat) returns (tr: seq<State>)
    requires Init(s) && lost < s.grain && sessionRef != "" && jti != ""
    ensures Run(tr) && tr[0] == s && Last(tr).now == s.now + dt
    ensures var expiresAt := Unix(s.now + if ttl <= 0 then 120 * SECOND else ttl);
            var t := Ticket(connectorID, authID, sessionRef, Unix(s.now), expiresAt, jti);
            Last(tr).wins == [Win(t, s.now, s.now)] +
              if s.now + dt >= (expiresAt + 1) * SECOND - lost then [Win(t, s.now, s.now + dt)] else []
  {
    var t: Ticket;
    tr, t := BothVerify(s, connectorID, authID, sessionRef, jti, ttl);
    UnixBounds(s.now, s.now + EffectiveTTL(ttl), t.expiresAt);
    tr := Follow(tr, Measure(1));
    SecondConsumeAtBoundary(Last(tr), 0, 1, dt, lost);
    tr := Follow(tr, Measure(0));
    tr := Follow(tr, Consume(0, Answered, lost));
    tr := Follow(tr, Tick(dt));
    tr := Follow(tr, Consume(1, Answered, lost));
  }
}
