/**
 Forwarding one gRPC call. Two pumps copy frames, client to upstream and upstream to client,
 each in its own goroutine; the director waits for the second, glances at the first and
 returns the status of the call. Every receive and send may fail at any time.
 */
module FramePumps {
  import opened Options
  import opened Traces

  type Frame = string
  type Error = string

  /** How a stream that has ended answers a send; an end of input is a step of its own. */
  const EOF: Error := "EOF"

  /** What each side sends until it half-closes, and the status the upstream ends with (None: success). */
  datatype Call = Call(client: seq<Frame>, upstream: seq<Frame>, status: Option<Error>)

  /** A pump holds at most one frame; when it stops it reports once, None meaning nil. */
  datatype Pump =
    | Receiving
    | Sending(frame: Frame)
    | Closing
    | Stopped(report: Option<Error>)

  datatype Director = Waiting | Glancing | Returned(result: Option<Error>)

  /** `failedUp` and `failedDown` (the failing call of each pump) and `ready` (how the glance went) are history. */
  datatype State = State(
    up: Pump, gotUp: nat, sentUp: seq<Frame>, closedSend: bool,
    down: Pump, gotDown: nat, sentDown: seq<Frame>,
    director: Director,
    failedUp: Option<Error>, failedDown: Option<Error>, ready: bool)

  datatype Action =
    | RecvUp(failed: Option<Error>)      // receive from the client
    | SendUp(failed: Option<Error>)      // send to the upstream
    | CloseSend(failed: Option<Error>)
    | RecvDown(failed: Option<Error>)    // receive from the upstream
    | SendDown(failed: Option<Error>)    // send to the client
    | TakeStatus
    | Glance(ready: bool)                // non-blocking receive; an answer needs a stopped pump

  predicate Enabled(s: State, a: Action) {
    match a
    case RecvUp(failed) => s.up.Receiving? && failed != Some(EOF)
    case SendUp(_) => s.up.Sending?
    case CloseSend(_) => s.up.Closing?
    case RecvDown(failed) => s.down.Receiving? && failed != Some(EOF)
    case SendDown(_) => s.down.Sending?
    case TakeStatus => s.director.Waiting? && s.down.Stopped?
    case Glance(ready) => s.director.Glancing? && (ready <==> s.up.Stopped?)
  }

  function Apply(c: Call, s: State, a: Action): State
    requires Enabled(s, a)
  {
    match a
    case RecvUp(failed) =>
      if failed.Some? then s.(up := Stopped(failed), failedUp := failed)
      else if s.gotUp < |c.client| then s.(up := Sending(c.client[s.gotUp]), gotUp := s.gotUp + 1)
      else s.(up := Closing)
    case SendUp(failed) =>
      if failed.Some? then s.(up := Stopped(failed), failedUp := failed)
      else s.(up := Receiving, sentUp := s.sentUp + [s.up.frame])
    case CloseSend(failed) => s.(up := Stopped(failed), closedSend := true, failedUp := failed)
    case RecvDown(failed) =>
      if failed.Some? then s.(down := Stopped(failed), failedDown := failed)
      else if s.gotDown < |c.upstream| then s.(down := Sending(c.upstream[s.gotDown]), gotDown := s.gotDown + 1)
      else s.(down := Stopped(c.status))
    case SendDown(failed) =>
      if failed.Some? then s.(down := Stopped(failed), failedDown := failed)
      else s.(down := Receiving, sentDown := s.sentDown + [s.down.frame])
    case TakeStatus => s.(director := if s.down.report.Some? then Returned(s.down.report) else Glancing)
    case Glance(ready) =>
      s.(director := Returned(if ready && s.up.report != Some(EOF) then s.up.report else None), ready := ready)
  }

  const INIT := State(Receiving, 0, [], false, Receiving, 0, [], Waiting, None, None, false)

  ghost predicate Next(c: Call, s: State, t: State) {
    exists a :: Enabled(s, a) && t == Apply(c, s, a)
  }

  ghost function Steps(c: Call): (State, State) -> bool {
    (s, t) => Next(c, s, t)
  }

  ghost predicate Run(c: Call, tr: seq<State>) {
    Chain(Steps(c), tr) && tr[0] == INIT
  }

  /** Everything received was sent on, in order, except a frame still held or lost with the stream. */
  predicate PumpInv(frames: seq<Frame>, p: Pump, got: nat, sent: seq<Frame>) {
    && got <= |frames|
    && (match p
        case Receiving => sent == frames[..got]
        case Sending(f) => got > 0 && sent == frames[..got - 1] && f == frames[got - 1]
        case Closing => got == |frames| && sent == frames
        case Stopped(_) => sent == frames[..got] || (got > 0 && sent == frames[..got - 1]))
  }

  predicate Inv(c: Call, s: State) {
    && PumpInv(c.client, s.up, s.gotUp, s.sentUp) && PumpInv(c.upstream, s.down, s.gotDown, s.sentDown)
    && !s.down.Closing?
    && (s.closedSend ==> s.up.Stopped? && s.sentUp == c.client)
    && (if s.up.Stopped? then s.up.report == s.failedUp else s.failedUp == None)
    && (s.up.Stopped? && s.failedUp == None ==> s.closedSend)
    && (if s.down.Stopped? then s.down.report == DownReport(c, s) else s.failedDown == None)
    && (s.down.Stopped? && s.failedDown == None ==> s.sentDown == c.upstream)
    && (s.director.Glancing? ==> s.down == Stopped(None))
    && (s.director.Returned? ==> s.down.Stopped? && (s.ready ==> s.up.Stopped?) && s.director.result == Verdict(c, s))
    && (!s.director.Returned? ==> !s.ready)
  }

  /** The failure of the answering pump, or else the status the upstream ended with. */
  function DownReport(c: Call, s: State): Option<Error> {
    if s.failedDown.Some? then s.failedDown else c.status
  }

  /**
   What the director is to return: the report of the answering pump if it is an error, else the
   failure of the other pump if that had already stopped, unless it is an end of stream.
   */
  function Verdict(c: Call, s: State): Option<Error> {
    if s.failedDown.Some? then s.failedDown
    else if c.status.Some? then c.status
    else if s.ready && s.failedUp != Some(EOF) then s.failedUp
    else None
  }

  lemma PumpReceives(frames: seq<Frame>, got: nat, sent: seq<Frame>)
    requires PumpInv(frames, Receiving, got, sent)
    ensures got < |frames| ==> PumpInv(frames, Sending(frames[got]), got + 1, sent)
    ensures got == |frames| ==> PumpInv(frames, Closing, got, sent)
  {
    assert frames[..|frames|] == frames;
  }

  lemma PumpSends(frames: seq<Frame>, f: Frame, got: nat, sent: seq<Frame>)
    requires PumpInv(frames, Sending(f), got, sent)
    ensures PumpInv(frames, Receiving, got, sent + [f])
  {
    assert frames[..got] == frames[..got - 1] + [frames[got - 1]];
  }

  lemma UpKeepsInv(c: Call, s: State, a: Action)
    requires Inv(c, s) && Enabled(s, a) && (a.RecvUp? || a.SendUp?)
    ensures Inv(c, Apply(c, s, a))
  {
    if a.RecvUp? {
      PumpReceives(c.client, s.gotUp, s.sentUp);
    } else {
      PumpSends(c.client, s.up.frame, s.gotUp, s.sentUp);
    }
  }

  lemma CloseKeepsInv(c: Call, s: State, failed: Option<Error>)
    requires Inv(c, s) && Enabled(s, CloseSend(failed))
    ensures Inv(c, Apply(c, s, CloseSend(failed)))
  {
    assert c.client[..|c.client|] == c.client;
  }

  lemma DownKeepsInv(c: Call, s: State, a: Action)
    requires Inv(c, s) && Enabled(s, a) && (a.RecvDown? || a.SendDown?)
    ensures Inv(c, Apply(c, s, a))
  {
    if a.RecvDown? {
      PumpReceives(c.upstream, s.gotDown, s.sentDown);
    } else {
      PumpSends(c.upstream, s.down.frame, s.gotDown, s.sentDown);
    }
  }

  lemma StepKeepsInv(c: Call, s: State, a: Action)
    requires Inv(c, s) && Enabled(s, a)
    ensures Inv(c, Apply(c, s, a))
  {
    match a
    case RecvUp(_) => UpKeepsInv(c, s, a);
    case SendUp(_) => UpKeepsInv(c, s, a);
    case CloseSend(failed) => CloseKeepsInv(c, s, failed);
    case RecvDown(_) => DownKeepsInv(c, s, a);
    case SendDown(_) => DownKeepsInv(c, s, a);
    case TakeStatus =>
    case Glance(_) =>
  }

  lemma {:induction false} RunKeepsInv(c: Call, tr: seq<State>, i: nat)
    requires Run(c, tr) && i < |tr|
    ensures Inv(c, tr[i])
  {
    if i > 0 {
      RunKeepsInv(c, tr, i - 1);
      StepInto(Steps(c), tr, i);
      var a :| Enabled(tr[i - 1], a) && tr[i] == Apply(c, tr[i - 1], a);
      StepKeepsInv(c, tr[i - 1], a);
    }
  }

  /**
   In every interleaving: what was sent on is an in-order prefix of what was received, the upstream
   is told the client is done only after all its frames, success means the whole upstream answer
   reached the client and the upstream reported success, and the director returns the first failure
   of the answering direction, else the upstream's own status, else what the glance found.
   */
  lemma ForwardsFaithfully(c: Call, tr: seq<State>, i: nat)
    requires Run(c, tr) && i < |tr|
    ensures var s := tr[i];
            && s.gotUp <= |c.client| && s.sentUp <= c.client[..s.gotUp]
            && s.gotDown <= |c.upstream| && s.sentDown <= c.upstream[..s.gotDown]
            && (s.closedSend ==> s.sentUp == c.client)
            && (s.director == Returned(None) ==> s.sentDown == c.upstream && c.status == None)
            && (s.director.Returned? ==>
                  s.director.result ==
                  if s.failedDown.Some? then s.failedDown
                  else if c.status.Some? then c.status
                  else if s.ready && s.failedUp != Some(EOF) then s.failedUp
                  else None)
  {
    RunKeepsInv(c, tr, i);
    var s := tr[i];
    assert s.gotUp > 0 ==> c.client[..s.gotUp - 1] <= c.client[..s.gotUp];
    assert s.gotDown > 0 ==> c.upstream[..s.gotDown - 1] <= c.upstream[..s.gotDown];
  }

  // ---------------------------------------------------------------- the loops

  /** Which receive or send fails, by the number of the frame. */
  type Faults = nat -> Option<Error>

  lemma Follow(c: Call, tr: seq<State>, a: Action) returns (longer: seq<State>)
    requires Run(c, tr) && Enabled(Last(tr), a)
    ensures Run(c, longer) && Last(longer) == Apply(c, Last(tr), a)
  {
    longer := tr + [Apply(c, Last(tr), a)];
    Extend(Steps(c), tr, Apply(c, Last(tr), a));
  }

  /** The client-to-upstream loop on its own: what it does is a run of the step machine. */
  method ForwardClientToUpstream(c: Call, recv: Faults, send: Faults, close: Option<Error>)
    returns (report: Option<Error>, sent: seq<Frame>, closed: bool, ghost tr: seq<State>)
    requires forall i :: recv(i) != Some(EOF)
    ensures Run(c, tr)
    ensures Last(tr) == INIT.(up := Stopped(report), gotUp := Last(tr).gotUp, sentUp := sent,
                              closedSend := closed, failedUp := report)
    ensures !closed ==> var n := |sent|;
              report.Some? && (report == recv(n) || (recv(n).None? && report == send(n)))
    ensures sent <= c.client && (closed ==> sent == c.client && report == close)
    ensures !closed <==> exists i :: 0 <= i <= |c.client| && (recv(i).Some? || (i < |c.client| && send(i).Some?))
  {
    sent, closed, tr := [], false, [INIT];
    while true
      invariant |sent| <= |c.client| && sent == c.client[..|sent|] && !closed
      invariant Run(c, tr) && Last(tr) == INIT.(gotUp := |sent|, sentUp := sent)
      invariant forall i :: 0 <= i < |sent| ==> recv(i).None? && send(i).None?
      decreases |c.client| - |sent|
    {
      var n := |sent|;
      tr := Follow(c, tr, RecvUp(recv(n)));
      if recv(n).Some? {
        return recv(n), sent, false, tr;
      }
      if n == |c.client| {
        tr := Follow(c, tr, CloseSend(close));
        return close, sent, true, tr;
      }
      var frame := c.client[n];
      tr := Follow(c, tr, SendUp(send(n)));
      if send(n).Some? {
        return send(n), sent, false, tr;
      }
      sent := sent + [frame];
    }
  }

  /** The upstream-to-client loop on its own; nil is reported only for a whole answer. */
  method ForwardUpstreamToClient(c: Call, recv: Faults, send: Faults)
    returns (report: Option<Error>, sent: seq<Frame>, ghost tr: seq<State>)
    requires forall i :: recv(i) != Some(EOF)
    ensures Run(c, tr) && Last(tr) == INIT.(down := Stopped(report), gotDown := Last(tr).gotDown, sentDown := sent,
                                            failedDown := Last(tr).failedDown)
    ensures var n := |sent|;
            report == if recv(n).Some? then recv(n) else if n == |c.upstream| then c.status else send(n)
    ensures sent <= c.upstream && (report.None? ==> sent == c.upstream)
    ensures report.None? <==>
            && c.status.None? && recv(|c.upstream|).None?
            && forall i :: 0 <= i < |c.upstream| ==> recv(i).None? && send(i).None?
  {
    sent, tr := [], [INIT];
    while true
      invariant |sent| <= |c.upstream| && sent == c.upstream[..|sent|]
      invariant Run(c, tr) && Last(tr) == INIT.(gotDown := |sent|, sentDown := sent)
      invariant forall i :: 0 <= i < |sent| ==> recv(i).None? && send(i).None?
      decreases |c.upstream| - |sent|
    {
      var n := |sent|;
      tr := Follow(c, tr, RecvDown(recv(n)));
      if recv(n).Some? {
        return recv(n), sent, tr;
      }
      if n == |c.upstream| {
        return c.status, sent, tr;
      }
      var frame := c.upstream[n];
      tr := Follow(c, tr, SendDown(send(n)));
      if send(n).Some? {
        return send(n), sent, tr;
      }
      sent := sent + [frame];
    }
  }
}
