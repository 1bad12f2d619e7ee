/**
 The token-bucket rate limiter. Times are in seconds and tokens are fractional; both are real
 numbers here, where the program uses floating point.
 */
module RateLimit {
  import opened Options

  type Key = string

  datatype Config = Config(requestsPerMinute: int, burst: int)

  predicate Accepted(c: Config) {
    c.requestsPerMinute >= 1 && c.burst >= 1
  }

  function Rate(c: Config): real {
    c.requestsPerMinute as real / 60.0
  }

  datatype Bucket = Bucket(tokens: real, last: real)

  // ---------------------------------------------------------------- one bucket

  function Max(a: real, b: real): real {
    if a > b then a else b
  }

  /** Tokens available to a request at `now`; a missing bucket starts full. */
  function Available(c: Config, b: Option<Bucket>, now: real): real {
    var capacity := c.burst as real;
    var tokens := if b.None? then capacity else b.value.tokens;
    var elapsed := if b.None? then 0.0 else now - b.value.last;
    if elapsed > 0.0 then
      if tokens + elapsed * Rate(c) > capacity then capacity else tokens + elapsed * Rate(c)
    else tokens
  }

  predicate Admits(c: Config, b: Option<Bucket>, now: real) {
    Available(c, b, now) >= 1.0
  }

  function Charge(c: Config, b: Option<Bucket>, now: real): Bucket {
    var tokens := Available(c, b, now);
    Bucket(if tokens >= 1.0 then tokens - 1.0 else tokens, now)
  }

  // ---------------------------------------------------------------- the plugin

  /** Everything the plugin is configured with. */
  datatype Settings = Settings(rates: Config, keyStrategy: string, headerName: string, trustedProxies: seq<string>)

  /** Trimming, lower-casing and recognizing an address block are the libraries'. */
  datatype Library = Library(trim: string -> string, lower: string -> string, isBlock: string -> bool)

  class Plugin {
    var cfg: Settings
    var buckets: map<Key, Bucket>

    constructor ()
      ensures cfg == Settings(Config(0, 0), "", "", []) && buckets == map[]
    {
      cfg := Settings(Config(0, 0), "", "", []);
      buckets := map[];
    }

    /** Takes effect only if all of it is acceptable; existing buckets survive. */
    method Configure(lib: Library, c: Settings) returns (ok: bool)
      modifies this`cfg
      ensures ok <==> && c.rates.requestsPerMinute >= 1 && c.rates.burst >= 1
                      && (var strategy := lib.lower(lib.trim(c.keyStrategy));
                          strategy == "ip" || strategy == "principal"
                          || (strategy == "header" && lib.trim(c.headerName) != ""))
                      && forall i :: 0 <= i < |c.trustedProxies| ==> lib.isBlock(c.trustedProxies[i])
      ensures cfg == if ok then Settings(c.rates, lib.lower(lib.trim(c.keyStrategy)), c.headerName, c.trustedProxies)
                     else old(cfg)
    {
      if c.rates.requestsPerMinute < 1 {
        return false;
      }
      if c.rates.burst < 1 {
        return false;
      }
      var strategy := lib.lower(lib.trim(c.keyStrategy));
      if strategy !in {"ip", "principal", "header"} {
        return false;
      }
      if strategy == "header" && lib.trim(c.headerName) == "" {
        return false;
      }
      for i := 0 to |c.trustedProxies|
        invariant forall k :: 0 <= k < i ==> lib.isBlock(c.trustedProxies[k])
        invariant cfg == old(cfg)
      {
        if !lib.isBlock(c.trustedProxies[i]) {
          return false;
        }
      }
      cfg := c.(keyStrategy := strategy);
      return true;
    }

    method Handle(key: Key, now: real) returns (allowed: bool)
      modifies this`buckets
      ensures Outcome(buckets, [allowed]) == Play(cfg.rates, old(buckets), [Request(key, now)])
    {
      var rate := cfg.rates.requestsPerMinute as real / 60.0;
      var capacity := cfg.rates.burst as real;
      if key !in buckets {
        buckets := buckets[key := Bucket(capacity, now)];
      }
      var bkt := buckets[key];
      var elapsed := now - bkt.last;
      if elapsed > 0.0 {
        bkt := bkt.(tokens := bkt.tokens + elapsed * rate);
        if bkt.tokens > capacity {
          bkt := bkt.(tokens := capacity);
        }
      }
      bkt := bkt.(last := now);
      ghost var before := Lookup(old(buckets), key);
      assert rate == Rate(cfg.rates) && bkt.tokens == Available(cfg.rates, before, now);
      allowed := bkt.tokens >= 1.0;
      if allowed {
        bkt := bkt.(tokens := bkt.tokens - 1.0);
      }
      buckets := buckets[key := bkt];
      assert bkt == Charge(cfg.rates, before, now) && allowed == Admits(cfg.rates, before, now);
      assert Play(cfg.rates, old(buckets)[key := bkt], [Request(key, now)][1..]) == Outcome(buckets, []);
    }
  }

  // ---------------------------------------------------------------- runs, in the order the mutex was taken

  datatype Request = Request(key: Key, at: real)
  datatype Outcome = Outcome(buckets: map<Key, Bucket>, allowed: seq<bool>)

  function Lookup(buckets: map<Key, Bucket>, k: Key): Option<Bucket> {
    if k in buckets then Some(buckets[k]) else None
  }

  function Play(c: Config, buckets: map<Key, Bucket>, reqs: seq<Request>): (r: Outcome)
    ensures |r.allowed| == |reqs|
    decreases reqs
  {
    if reqs == [] then Outcome(buckets, [])
    else
      var b := Lookup(buckets, reqs[0].key);
      var rest := Play(c, buckets[reqs[0].key := Charge(c, b, reqs[0].at)], reqs[1..]);
      Outcome(rest.buckets, [Admits(c, b, reqs[0].at)] + rest.allowed)
  }

  /** The same for a single bucket. */
  function PlayOne(c: Config, b: Option<Bucket>, times: seq<real>): (r: (Option<Bucket>, seq<bool>))
    ensures |r.1| == |times|
    decreases times
  {
    if times == [] then (b, [])
    else
      var rest := PlayOne(c, Some(Charge(c, b, times[0])), times[1..]);
      (rest.0, [Admits(c, b, times[0])] + rest.1)
  }

  function TimesOf(reqs: seq<Request>, k: Key): seq<real> {
    if reqs == [] then []
    else (if reqs[0].key == k then [reqs[0].at] else []) + TimesOf(reqs[1..], k)
  }

  function AnswersTo(reqs: seq<Request>, allowed: seq<bool>, k: Key): seq<bool>
    requires |allowed| == |reqs|
  {
    if reqs == [] then []
    else (if reqs[0].key == k then [allowed[0]] else []) + AnswersTo(reqs[1..], allowed[1..], k)
  }

  function Count(answers: seq<bool>): nat {
    if answers == [] then 0 else (if answers[0] then 1 else 0) + Count(answers[1..])
  }

  /** Other keys have no effect: what a key sees is what it would see alone. */
  lemma {:induction false} KeysAreIndependent(c: Config, buckets: map<Key, Bucket>, reqs: seq<Request>, k: Key)
    ensures var all, one := Play(c, buckets, reqs), PlayOne(c, Lookup(buckets, k), TimesOf(reqs, k));
            AnswersTo(reqs, all.allowed, k) == one.1 && Lookup(all.buckets, k) == one.0
    decreases reqs
  {
    if reqs != [] {
      var next := buckets[reqs[0].key := Charge(c, Lookup(buckets, reqs[0].key), reqs[0].at)];
      KeysAreIndependent(c, next, reqs[1..], k);
      assert Play(c, buckets, reqs).allowed[1..] == Play(c, next, reqs[1..]).allowed;
      if reqs[0].key == k {
        assert TimesOf(reqs, k)[1..] == TimesOf(reqs[1..], k);
      } else {
        assert TimesOf(reqs, k) == TimesOf(reqs[1..], k);
      }
    }
  }

  // ---------------------------------------------------------------- the bound

  predicate Filled(c: Config, b: Option<Bucket>) {
    b.Some? ==> 0.0 <= b.value.tokens <= c.burst as real
  }

  /** How far the clock moved forward over the times, summed up; moving back counts nothing. */
  function Rise(start: real, times: seq<real>): real
    decreases times
  {
    if times == [] then 0.0 else Max(0.0, times[0] - start) + Rise(times[0], times[1..])
  }

  /** Tokens earned by one forward move of the clock. */
  function Earned(c: Config, from: real, to: real): real {
    Rate(c) * Max(0.0, to - from)
  }

  function EarnedOver(c: Config, start: real, times: seq<real>): real
    decreases times
  {
    if times == [] then 0.0 else Earned(c, start, times[0]) + EarnedOver(c, times[0], times[1..])
  }

  lemma Distributes(r: real, a: real, b: real)
    ensures r * (a + b) == r * a + r * b
  {
  }

  lemma {:induction false} EarnedIsRateTimesRise(c: Config, start: real, times: seq<real>)
    ensures EarnedOver(c, start, times) == Rate(c) * Rise(start, times)
    decreases times
  {
    if times != [] {
      EarnedIsRateTimesRise(c, times[0], times[1..]);
      Distributes(Rate(c), Max(0.0, times[0] - start), Rise(times[0], times[1..]));
    }
  }

  predicate Nondecreasing(times: seq<real>) {
    forall i, j :: 0 <= i < j < |times| ==> times[i] <= times[j]
  }

  lemma {:induction false} RiseOfNondecreasing(start: real, times: seq<real>)
    requires times != [] && Nondecreasing(times) && start <= times[0]
    ensures Rise(start, times) == times[|times| - 1] - start
    decreases times
  {
    if |times| > 1 {
      RiseOfNondecreasing(times[0], times[1..]);
    }
  }

  lemma ChargeConserves(c: Config, b: Bucket, now: real)
    requires Accepted(c) && Filled(c, Some(b))
    ensures var n := Charge(c, Some(b), now);
            && 0.0 <= n.tokens <= c.burst as real && n.last == now
            && n.tokens + (if Admits(c, Some(b), now) then 1.0 else 0.0) <= b.tokens + Earned(c, b.last, now)
  {
    assert Rate(c) > 0.0;
    if now > b.last {
      assert (now - b.last) * Rate(c) == Rate(c) * (now - b.last) > 0.0;
    }
  }

  /** Tokens spent plus tokens left never exceed tokens held plus tokens earned. */
  lemma {:induction false} TokensConserved(c: Config, b: Bucket, times: seq<real>)
    requires Accepted(c) && Filled(c, Some(b))
    ensures var r := PlayOne(c, Some(b), times);
            && r.0.Some? && Filled(c, r.0)
            && Count(r.1) as real + r.0.value.tokens <= b.tokens + EarnedOver(c, b.last, times)
    decreases times
  {
    if times != [] {
      var n := Charge(c, Some(b), times[0]);
      ChargeConserves(c, b, times[0]);
      TokensConserved(c, n, times[1..]);
      assert PlayOne(c, Some(b), times).1[1..] == PlayOne(c, Some(n), times[1..]).1;
    }
  }

  /** From any bucket, full or missing: the first request finds at most `burst` tokens. */
  lemma AdmissionsBounded(c: Config, b: Option<Bucket>, times: seq<real>)
    requires Accepted(c) && Filled(c, b) && times != []
    ensures var r := PlayOne(c, b, times);
            && Filled(c, r.0)
            && Count(r.1) as real <= c.burst as real + EarnedOver(c, times[0], times[1..])
  {
    if b.Some? {
      ChargeConserves(c, b.value, times[0]);
    }
    var n := Charge(c, b, times[0]);
    TokensConserved(c, n, times[1..]);
    var answers := PlayOne(c, b, times).1;
    assert answers[1..] == PlayOne(c, Some(n), times[1..]).1;
  }

  ghost predicate AllFilled(c: Config, buckets: map<Key, Bucket>) {
    forall k :: k in buckets ==> Filled(c, Some(buckets[k]))
  }

  /** Tokens stay within zero and the burst size in every bucket. */
  lemma {:induction false} PlayKeepsFilled(c: Config, buckets: map<Key, Bucket>, reqs: seq<Request>)
    requires Accepted(c) && AllFilled(c, buckets)
    ensures AllFilled(c, Play(c, buckets, reqs).buckets)
    decreases reqs
  {
    if reqs != [] {
      var b := Lookup(buckets, reqs[0].key);
      if b.Some? {
        ChargeConserves(c, b.value, reqs[0].at);
      }
      PlayKeepsFilled(c, buckets[reqs[0].key := Charge(c, b, reqs[0].at)], reqs[1..]);
    }
  }

  /**
   Whatever happened before and whatever other keys do: if the clock moves forward by at most T
   seconds in all between the requests of one key in a window, at most burst + rpm / 60 * T of them
   are admitted.
   */
  lemma WindowBound(c: Config, before: seq<Request>, window: seq<Request>, k: Key, T: real)
    requires Accepted(c) && TimesOf(window, k) != []
    requires Rise(TimesOf(window, k)[0], TimesOf(window, k)[1..]) <= T
    ensures var start := Play(c, map[], before).buckets;
            Count(AnswersTo(window, Play(c, start, window).allowed, k)) as real
            <= c.burst as real + c.requestsPerMinute as real / 60.0 * T
  {
    var start := Play(c, map[], before).buckets;
    PlayKeepsFilled(c, map[], before);
    KeysAreIndependent(c, start, window, k);
    AdmissionsWithin(c, Lookup(start, k), TimesOf(window, k), T);
  }

  /** With clock readings in order and the last one at most T after the first. */
  lemma WindowBoundInOrder(c: Config, before: seq<Request>, window: seq<Request>, k: Key, T: real)
    requires Accepted(c) && TimesOf(window, k) != [] && Nondecreasing(TimesOf(window, k))
    requires var times := TimesOf(window, k); times[|times| - 1] - times[0] <= T
    ensures var start := Play(c, map[], before).buckets;
            Count(AnswersTo(window, Play(c, start, window).allowed, k)) as real
            <= c.burst as real + c.requestsPerMinute as real / 60.0 * T
  {
    RiseWithin(TimesOf(window, k), T);
    WindowBound(c, before, window, k, T);
  }

  lemma AdmissionsWithin(c: Config, b: Option<Bucket>, times: seq<real>, T: real)
    requires Accepted(c) && Filled(c, b) && times != [] && Rise(times[0], times[1..]) <= T
    ensures Count(PlayOne(c, b, times).1) as real <= c.burst as real + c.requestsPerMinute as real / 60.0 * T
  {
    AdmissionsBounded(c, b, times);
    EarnedWithin(c, times, T);
  }

  lemma EarnedWithin(c: Config, times: seq<real>, T: real)
    requires Accepted(c) && times != [] && Rise(times[0], times[1..]) <= T
    ensures EarnedOver(c, times[0], times[1..]) <= c.requestsPerMinute as real / 60.0 * T
  {
    EarnedIsRateTimesRise(c, times[0], times[1..]);
    Widen(c.requestsPerMinute as real / 60.0, Rise(times[0], times[1..]), T);
  }

  lemma RiseWithin(times: seq<real>, T: real)
    requires times != [] && Nondecreasing(times) && times[|times| - 1] - times[0] <= T
    ensures Rise(times[0], times[1..]) <= T
  {
    if |times| > 1 {
      RiseOfNondecreasing(times[0], times[1..]);
    }
  }

  lemma Widen(rate: real, rise: real, T: real)
    requires rise <= T && rate >= 0.0
    ensures rate * rise <= rate * T
  {
  }

  // ---------------------------------------------------------------- a patient key is never denied

  predicate Patient(c: Config, b: Option<Bucket>, times: seq<real>)
    requires Accepted(c)
  {
    var gap := 60.0 / c.requestsPerMinute as real;
    && (b.Some? && times != [] ==> times[0] - b.value.last >= gap)
    && SpacedBy(gap, times)
  }

  predicate SpacedBy(gap: real, times: seq<real>) {
    |times| >= 2 ==> times[1] - times[0] >= gap && SpacedBy(gap, times[1..])
  }

  lemma GapRefillsOne(c: Config, dt: real)
    requires Accepted(c) && dt >= 60.0 / c.requestsPerMinute as real
    ensures dt * Rate(c) >= 1.0 && dt > 0.0
  {
    var r := c.requestsPerMinute as real;
    assert r >= 1.0;
    var gap := 60.0 / r;
    assert gap * r == 60.0;
    assert dt * r >= gap * r;
  }

  lemma {:induction false} PatientKeyNeverDenied(c: Config, b: Option<Bucket>, times: seq<real>)
    requires Accepted(c) && Filled(c, b) && Patient(c, b, times)
    ensures Count(PlayOne(c, b, times).1) == |times|
    decreases times
  {
    if times != [] {
      if b.Some? {
        GapRefillsOne(c, times[0] - b.value.last);
        ChargeConserves(c, b.value, times[0]);
      }
      assert Admits(c, b, times[0]);
      var n := Charge(c, b, times[0]);
      PatientKeyNeverDenied(c, Some(n), times[1..]);
      assert PlayOne(c, b, times).1[1..] == PlayOne(c, Some(n), times[1..]).1;
    }
  }

  /** Whatever other keys do, a key whose requests are 60 / rpm seconds apart is always admitted. */
  lemma PatientAmongOthers(c: Config, reqs: seq<Request>, k: Key)
    requires Accepted(c) && Patient(c, None, TimesOf(reqs, k))
    ensures var answers := AnswersTo(reqs, Play(c, map[], reqs).allowed, k);
            Count(answers) == |answers| == |TimesOf(reqs, k)|
  {
    KeysAreIndependent(c, map[], reqs, k);
    PatientKeyNeverDenied(c, None, TimesOf(reqs, k));
  }

  // ---------------------------------------------------------------- what is admitted, exactly

  /** All admissions of a prefix are admissions of the whole. */
  lemma CountStep(answers: seq<bool>)
    requires answers != []
    ensures Count(answers) == (if answers[0] then 1 else 0) + Count(answers[1..])
  {
  }

  /** A new key gets its whole burst, and a known one what its bucket holds, at once or in any order of times. */
  lemma {:induction false} BurstIsAdmitted(c: Config, b: Option<Bucket>, times: seq<real>)
    requires Accepted(c) && Filled(c, b)
    requires |times| as real <= if b.None? then c.burst as real else b.value.tokens
    ensures Count(PlayOne(c, b, times).1) == |times|
    decreases times
  {
    if times != [] {
      HoldsOn(c, b, times[0]);
      var n := Charge(c, b, times[0]);
      BurstIsAdmitted(c, Some(n), times[1..]);
      assert PlayOne(c, b, times).1[1..] == PlayOne(c, Some(n), times[1..]).1;
    }
  }

  /** Time only adds to what a bucket holds, up to the burst size. */
  lemma HoldsOn(c: Config, b: Option<Bucket>, now: real)
    requires Accepted(c) && Filled(c, b)
    ensures Available(c, b, now) >= if b.None? then c.burst as real else b.value.tokens
    ensures Available(c, b, now) <= c.burst as real
  {
    if b.Some? {
      ChargeConserves(c, b.value, now);
      if now > b.value.last {
        assert (now - b.value.last) * Rate(c) >= 0.0;
      }
    }
  }

  /** In particular among other keys: the first requests of a key, up to the burst size, are all admitted. */
  lemma NewKeyGetsItsBurst(c: Config, reqs: seq<Request>, k: Key)
    requires Accepted(c) && |TimesOf(reqs, k)| <= c.burst
    ensures var answers := AnswersTo(reqs, Play(c, map[], reqs).allowed, k);
            Count(answers) == |answers| == |TimesOf(reqs, k)|
  {
    KeysAreIndependent(c, map[], reqs, k);
    BurstIsAdmitted(c, None, TimesOf(reqs, k));
  }

  /** What is left at `now` of a full bucket at times[m], after all admissions from there on. */
  function LeftSince(c: Config, times: seq<real>, answers: seq<bool>, m: nat, now: real): real
    requires m < |times| == |answers|
  {
    c.burst as real + c.requestsPerMinute as real / 60.0 * Rise(times[m], times[m + 1..] + [now])
    - Count(answers[m..]) as real
  }

  /** What is left of the tokens held at the beginning. */
  function LeftOver(c: Config, b: Bucket, times: seq<real>, answers: seq<bool>, now: real): real {
    b.tokens + c.requestsPerMinute as real / 60.0 * Rise(b.last, times + [now]) - Count(answers) as real
  }

  ghost predicate NoneShort(c: Config, times: seq<real>, answers: seq<bool>, now: real)
    requires |times| == |answers|
  {
    forall m :: 0 <= m < |times| ==> LeftSince(c, times, answers, m, now) >= 1.0
  }

  /** One request on, the same accounts stand shifted by one. */
  lemma ShortShifts(c: Config, times: seq<real>, answers: seq<bool>, now: real)
    requires |times| == |answers| && times != []
    ensures NoneShort(c, times, answers, now) <==>
              LeftSince(c, times, answers, 0, now) >= 1.0 && NoneShort(c, times[1..], answers[1..], now)
  {
    forall m | 0 <= m < |times| - 1
      ensures LeftSince(c, times, answers, m + 1, now) == LeftSince(c, times[1..], answers[1..], m, now)
    {
      assert times[m + 2..] == times[1..][m + 1..] && answers[m + 1..] == answers[1..][m..];
    }
    forall m | 1 <= m < |times| && NoneShort(c, times[1..], answers[1..], now)
      ensures LeftSince(c, times, answers, m, now) >= 1.0
    {
      assert LeftSince(c, times[1..], answers[1..], m - 1, now) >= 1.0;
      assert LeftSince(c, times, answers, m - 1 + 1, now) == LeftSince(c, times[1..], answers[1..], m - 1, now);
    }
    if NoneShort(c, times, answers, now) {
      forall m | 0 <= m < |times| - 1 ensures LeftSince(c, times[1..], answers[1..], m, now) >= 1.0 {
        assert LeftSince(c, times, answers, m + 1, now) >= 1.0;
      }
    }
  }

  /**
   A request is denied exactly if the admissions since some earlier request, counting from a full
   bucket there, or since the beginning, counting from what was held then, have used up what was
   earned meanwhile at rpm / 60 tokens a second.
   */
  lemma {:induction false} AdmittedIffNoneShort(c: Config, b: Bucket, times: seq<real>, now: real)
    requires Accepted(c) && Filled(c, Some(b))
    ensures var r := PlayOne(c, Some(b), times);
            Admits(c, r.0, now) <==>
              LeftOver(c, b, times, r.1, now) >= 1.0 && NoneShort(c, times, r.1, now)
    decreases times
  {
    var answers := PlayOne(c, Some(b), times).1;
    if times == [] {
      AdmitsNow(c, b, now);
    } else {
      var n := Charge(c, Some(b), times[0]);
      ChargeConserves(c, b, times[0]);
      AdmittedIffNoneShort(c, n, times[1..], now);
      assert answers[1..] == PlayOne(c, Some(n), times[1..]).1;
      ShortShifts(c, times, answers, now);
      FirstAccounts(c, b, times, answers, now);
    }
  }

  lemma AdmitsNow(c: Config, b: Bucket, now: real)
    requires Accepted(c) && Filled(c, Some(b))
    ensures Admits(c, Some(b), now) <==> LeftOver(c, b, [], [], now) >= 1.0
  {
    assert [] + [now] == [now];
    RiseOne(b.last, now);
    Accrues(c, b, now);
  }

  lemma RiseOne(start: real, now: real)
    ensures Rise(start, [now]) == if now > start then now - start else 0.0
  {
    assert [now][1..] == [];
  }

  /** What a bucket has at an instant: what it held and earned, or the burst size if that is less. */
  lemma Accrues(c: Config, b: Bucket, now: real)
    requires Accepted(c) && Filled(c, Some(b))
    ensures var earned := c.requestsPerMinute as real / 60.0 * (if now > b.last then now - b.last else 0.0);
            && earned >= 0.0
            && Available(c, Some(b), now) ==
               if b.tokens + earned > c.burst as real then c.burst as real else b.tokens + earned
  {
    if now > b.last {
      assert (now - b.last) * Rate(c) == Rate(c) * (now - b.last) >= 0.0;
    }
  }

  /** The bucket after the first request carries both accounts that start with it. */
  lemma FirstAccounts(c: Config, b: Bucket, times: seq<real>, answers: seq<bool>, now: real)
    requires Accepted(c) && Filled(c, Some(b)) && times != [] && |answers| == |times|
    requires answers[0] == Admits(c, Some(b), times[0])
    ensures var n := Charge(c, Some(b), times[0]);
            LeftOver(c, n, times[1..], answers[1..], now) >= 1.0 <==>
              LeftOver(c, b, times, answers, now) >= 1.0 && LeftSince(c, times, answers, 0, now) >= 1.0
  {
    var first, later := Accounts(c, b, times, answers, now);
    MinSplits(b.tokens, c.burst as real, first, later, Count(answers) as real, if answers[0] then 1.0 else 0.0);
  }

  /** What is earned up to the first request and from then on. */
  lemma Accounts(c: Config, b: Bucket, times: seq<real>, answers: seq<bool>, now: real)
    returns (first: real, later: real)
    requires Accepted(c) && Filled(c, Some(b)) && times != [] && |answers| == |times|
    requires answers[0] == Admits(c, Some(b), times[0])
    ensures LeftOver(c, b, times, answers, now) == b.tokens + (first + later) - Count(answers) as real
    ensures LeftSince(c, times, answers, 0, now) == c.burst as real + later - Count(answers) as real
    ensures var n := Charge(c, Some(b), times[0]);
            LeftOver(c, n, times[1..], answers[1..], now) ==
            (if b.tokens + first > c.burst as real then c.burst as real else b.tokens + first)
            - (if answers[0] then 1.0 else 0.0) + later
            - (Count(answers) as real - if answers[0] then 1.0 else 0.0)
  {
    var rate := c.requestsPerMinute as real / 60.0;
    var moved := if times[0] > b.last then times[0] - b.last else 0.0;
    var rest := Rise(times[0], times[1..] + [now]);
    first, later := rate * moved, rate * rest;
    Accrues(c, b, times[0]);
    ChargeIs(c, b, times[0], first);
    CountStep(answers);
    WholeAccount(c, b, times, answers, now);
    assert answers[0..] == answers;
  }

  lemma WholeAccount(c: Config, b: Bucket, times: seq<real>, answers: seq<bool>, now: real)
    requires times != []
    ensures var rate := c.requestsPerMinute as real / 60.0;
            LeftOver(c, b, times, answers, now) ==
            b.tokens + (rate * (if times[0] > b.last then times[0] - b.last else 0.0)
                        + rate * Rise(times[0], times[1..] + [now])) - Count(answers) as real
  {
    RiseStep(b.last, times, now);
    Distributes(c.requestsPerMinute as real / 60.0, if times[0] > b.last then times[0] - b.last else 0.0,
                Rise(times[0], times[1..] + [now]));
  }

  lemma ChargeIs(c: Config, b: Bucket, now: real, earned: real)
    requires Available(c, Some(b), now) ==
             if b.tokens + earned > c.burst as real then c.burst as real else b.tokens + earned
    ensures Charge(c, Some(b), now).last == now
    ensures Charge(c, Some(b), now).tokens ==
            (if b.tokens + earned > c.burst as real then c.burst as real else b.tokens + earned)
            - if Admits(c, Some(b), now) then 1.0 else 0.0
  {
  }

  lemma RiseStep(start: real, times: seq<real>, now: real)
    requires times != []
    ensures Rise(start, times + [now]) ==
            (if times[0] > start then times[0] - start else 0.0) + Rise(times[0], times[1..] + [now])
  {
    assert (times + [now])[1..] == times[1..] + [now];
  }

  /** A capped balance suffices exactly if both the uncapped one and the cap do. */
  lemma MinSplits(held: real, cap: real, earned: real, later: real, count: real, first: real)
    ensures (if held + earned > cap then cap else held + earned) - first + later - (count - first) >= 1.0 <==>
              held + (earned + later) - count >= 1.0 && cap + later - count >= 1.0
  {
  }

  /** And for a new key, whose account begins full with its first request. */
  lemma NewKeyAdmittedIff(c: Config, times: seq<real>, now: real)
    requires Accepted(c) && times != []
    ensures var r := PlayOne(c, None, times);
            Admits(c, r.0, now) <==> NoneShort(c, times, r.1, now)
  {
    var full := Bucket(c.burst as real, times[0]);
    Accrues(c, full, times[0]);
    assert Charge(c, None, times[0]) == Charge(c, Some(full), times[0]);
    assert PlayOne(c, None, times).1 == PlayOne(c, Some(full), times).1;
    AdmittedIffNoneShort(c, full, times, now);
    FullAccounts(c, full, times, PlayOne(c, None, times).1, now);
  }

  lemma FullAccounts(c: Config, full: Bucket, times: seq<real>, answers: seq<bool>, now: real)
    requires times != [] && |answers| == |times| && full == Bucket(c.burst as real, times[0])
    ensures LeftOver(c, full, times, answers, now) == LeftSince(c, times, answers, 0, now)
  {
    RiseStep(times[0], times, now);
    assert answers[0..] == answers;
  }
}
