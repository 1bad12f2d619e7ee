/**
 Hot reload of the policy bundle. A poller compares the bundle's modification time with the
 last one it loaded, and a loader with its own cache stats, reads, verifies, compiles and
 instantiates. Between any two of these steps the bundle and its signature file may be
 rewritten or removed, and any step may fail.
 */
module HotReload {
  import opened Options
  import opened Traces

  type Bytes = string
  type Signature = string

  /** The outside world: the configured key, the compiler and the module runtime. */
  datatype World = World(
    keyed: bool,
    verifies: (Bytes, Signature) -> bool,
    compiles: Bytes -> bool,
    instantiates: Bytes -> bool)

  /** An engine is known by the bytes it was compiled from. */
  datatype Engine = Engine(source: Bytes)

  datatype File = File(bytes: Bytes, mtime: int)
  datatype CacheEntry = CacheEntry(source: Bytes, modTime: int)

  /**
   Where the process stands. `mod` is the time the poller saw, None during the first load;
   `modTime` is the time the loader saw.
   */
  datatype Phase =
    | Idle
    | Stated(seen: int)
    | Loading(mod: Option<int>)
    | Reading(mod: Option<int>, modTime: int)
    | Lookup(mod: Option<int>, modTime: int, wasm: Bytes)
    | Verifying(mod: Option<int>, modTime: int, wasm: Bytes)
    | Compiling(mod: Option<int>, modTime: int, wasm: Bytes)
    | Instantiating(mod: Option<int>, source: Bytes)
    | Swapping(mod: Option<int>, engine: Engine)
    | Seeding
    | Dead

  datatype State = State(
    bundle: Option<File>,
    sig: Option<Signature>,
    used: set<int>,               // modification times handed out so far
    cache: Option<CacheEntry>,
    current: Option<Engine>,
    lastMod: Option<int>,
    phase: Phase,
    verified: set<Bytes>)         // history: bytes whose signature was checked and held

  datatype Action =
    | WriteBundle(bytes: Bytes, mtime: int)
    | RemoveBundle
    | WriteSignature(s: Signature)
    | RemoveSignature
    | Step(ok: bool)              // the process's next step; not ok: the call made there fails

  predicate IsWrite(a: Action) {
    !a.Step?
  }

  /** A failed load keeps the last good engine; before there is one it ends the process. */
  function Abandon(s: State, mod: Option<int>): State {
    s.(phase := if mod.None? then Dead else Idle)
  }

  function Advance(w: World, s: State, ok: bool): State {
    match s.phase
    case Idle => if ok && s.bundle.Some? then s.(phase := Stated(s.bundle.value.mtime)) else s
    case Stated(mod) => s.(phase := if s.lastMod == Some(mod) then Idle else Loading(Some(mod)))
    case Loading(mod) =>
      if ok && s.bundle.Some? then s.(phase := Reading(mod, s.bundle.value.mtime)) else Abandon(s, mod)
    case Reading(mod, modTime) =>
      if ok && s.bundle.Some? then s.(phase := Lookup(mod, modTime, s.bundle.value.bytes)) else Abandon(s, mod)
    case Lookup(mod, modTime, wasm) =>
      if s.cache.Some? && s.cache.value.modTime == modTime then
        s.(phase := Instantiating(mod, s.cache.value.source))
      else s.(phase := if w.keyed then Verifying(mod, modTime, wasm) else Compiling(mod, modTime, wasm))
    case Verifying(mod, modTime, wasm) =>
      if ok && s.sig.Some? && w.verifies(wasm, s.sig.value) then
        s.(phase := Compiling(mod, modTime, wasm), verified := s.verified + {wasm})
      else Abandon(s, mod)
    case Compiling(mod, modTime, wasm) =>
      if ok && w.compiles(wasm) then
        s.(phase := Instantiating(mod, wasm), cache := Some(CacheEntry(wasm, modTime)))
      else Abandon(s, mod)
    case Instantiating(mod, source) =>
      if ok && w.instantiates(source) then s.(phase := Swapping(mod, Engine(source))) else Abandon(s, mod)
    case Swapping(mod, engine) =>
      if mod.None? then s.(phase := Seeding, current := Some(engine))
      else s.(phase := Idle, current := Some(engine), lastMod := mod)
    case Seeding =>
      s.(phase := Idle, lastMod := if ok && s.bundle.Some? then Some(s.bundle.value.mtime) else None)
    case Dead => s
  }

  /** Modification times are never reused. */
  predicate Enabled(s: State, a: Action) {
    a.WriteBundle? ==> a.mtime !in s.used
  }

  function Apply(w: World, s: State, a: Action): State
    requires Enabled(s, a)
  {
    match a
    case WriteBundle(bytes, mtime) => s.(bundle := Some(File(bytes, mtime)), used := s.used + {mtime})
    case RemoveBundle => s.(bundle := None)
    case WriteSignature(sig) => s.(sig := Some(sig))
    case RemoveSignature => s.(sig := None)
    case Step(ok) => Advance(w, s, ok)
  }

  predicate Init(s: State) {
    && s.cache == None && s.current == None && s.lastMod == None && s.phase == Loading(None) && s.verified == {}
    && (s.bundle.Some? ==> s.bundle.value.mtime in s.used)
  }

  ghost predicate Next(w: World, s: State, t: State) {
    exists a :: Enabled(s, a) && t == Apply(w, s, a)
  }

  ghost function Steps(w: World): (State, State) -> bool {
    (s, t) => Next(w, s, t)
  }

  ghost predicate Run(w: World, tr: seq<State>) {
    Chain(Steps(w), tr) && Init(tr[0])
  }

  // ---------------------------------------------------------------- last-good safety

  predicate Serving(p: Phase) {
    p.Idle? || p.Stated? || p.Seeding? ||
    ((p.Loading? || p.Reading? || p.Lookup? || p.Verifying? || p.Compiling? || p.Instantiating? || p.Swapping?)
     && p.mod.Some?)
  }

  predicate Trusted(w: World, s: State, source: Bytes) {
    w.keyed ==> source in s.verified
  }

  ghost predicate SafeInv(w: World, s: State) {
    && (Serving(s.phase) ==> s.current.Some?)
    && (s.current.Some? ==> Trusted(w, s, s.current.value.source))
    && (s.cache.Some? ==> Trusted(w, s, s.cache.value.source))
    && (match s.phase
        case Compiling(_, _, wasm) => Trusted(w, s, wasm)
        case Instantiating(_, source) => Trusted(w, s, source)
        case Swapping(_, engine) => Trusted(w, s, engine.source)
        case _ => true)
    && (forall b :: b in s.verified ==> exists sig :: w.verifies(b, sig))
  }

  lemma StepKeepsSafe(w: World, s: State, a: Action)
    requires SafeInv(w, s) && Enabled(s, a)
    ensures SafeInv(w, Apply(w, s, a))
  {
  }

  lemma {:induction false} ChainKeepsSafe(w: World, tr: seq<State>, i: nat)
    requires Chain(Steps(w), tr) && SafeInv(w, tr[0]) && i < |tr|
    ensures SafeInv(w, tr[i])
  {
    if i > 0 {
      ChainKeepsSafe(w, tr, i - 1);
      StepInto(Steps(w), tr, i);
      var a :| Enabled(tr[i - 1], a) && tr[i] == Apply(w, tr[i - 1], a);
      StepKeepsSafe(w, tr[i - 1], a);
    }
  }

  /**
   Whatever is written and whatever fails, from the end of the first load on there is an engine,
   and with a key configured it was compiled from bytes some signature verified for.
   */
  lemma AlwaysServesVerified(w: World, tr: seq<State>, i: nat)
    requires Run(w, tr) && i < |tr|
    ensures SafeInv(w, tr[i])
    ensures Serving(tr[i].phase) ==>
              tr[i].current.Some? && (w.keyed ==> exists sig :: w.verifies(tr[i].current.value.source, sig))
  {
    ChainKeepsSafe(w, tr, i);
  }

  /** Engine and remembered time change together, only at the end of a load that succeeded throughout. */
  lemma OnlySuccessSwaps(w: World, s: State, a: Action)
    requires Enabled(s, a) && Serving(s.phase) && !s.phase.Seeding?
    ensures var t := Apply(w, s, a);
            if a.Step? && s.phase.Swapping?
            then t.phase == Idle && t.current == Some(s.phase.engine) && t.lastMod == s.phase.mod
            else t.current == s.current && t.lastMod == s.lastMod
  {
  }

  // ---------------------------------------------------------------- convergence

  /** If the bundle still carries time m, then `source` is what it holds. */
  predicate MatchesDisk(s: State, m: int, source: Bytes) {
    s.bundle.Some? && s.bundle.value.mtime == m ==> source == s.bundle.value.bytes
  }

  /** The loader looked after the poller: an unchanged bundle has shown it the same time. */
  predicate Follows(s: State, mod: Option<int>, modTime: int) {
    && modTime in s.used
    && (mod.Some? ==> mod.value in s.used
                      && (s.bundle.Some? && s.bundle.value.mtime == mod.value ==> modTime == mod.value))
  }

  predicate LoadedFor(s: State, mod: Option<int>, source: Bytes) {
    mod.Some? ==> mod.value in s.used && MatchesDisk(s, mod.value, source)
  }

  predicate TimeInv(s: State) {
    && (s.bundle.Some? ==> s.bundle.value.mtime in s.used)
    && (s.cache.Some? ==>
          s.cache.value.modTime in s.used && MatchesDisk(s, s.cache.value.modTime, s.cache.value.source))
    && (s.lastMod.Some? ==>
          Serving(s.phase) && !s.phase.Seeding? && s.lastMod.value in s.used && s.current.Some?
          && MatchesDisk(s, s.lastMod.value, s.current.value.source))
    && match s.phase
       case Stated(seen) => seen in s.used
       case Loading(mod) => mod.Some? ==> mod.value in s.used
       case Reading(mod, modTime) => Follows(s, mod, modTime)
       case Lookup(mod, modTime, wasm) => Follows(s, mod, modTime) && MatchesDisk(s, modTime, wasm)
       case Verifying(mod, modTime, wasm) => Follows(s, mod, modTime) && MatchesDisk(s, modTime, wasm)
       case Compiling(mod, modTime, wasm) => Follows(s, mod, modTime) && MatchesDisk(s, modTime, wasm)
       case Instantiating(mod, source) => LoadedFor(s, mod, source)
       case Swapping(mod, engine) => LoadedFor(s, mod, engine.source)
       case _ => true
  }

  /** The watcher is seeded with the time of the bundle its first engine came from. */
  predicate SeedMatches(s: State, a: Action) {
    s.phase.Seeding? && a == Step(true) && s.bundle.Some? ==> s.current == Some(Engine(s.bundle.value.bytes))
  }

  lemma WriteKeepsTimes(w: World, s: State, a: Action)
    requires TimeInv(s) && Enabled(s, a) && IsWrite(a)
    ensures TimeInv(Apply(w, s, a))
  {
  }

  /** Reading the file: what was read under an unchanged time is what the file holds. */
  lemma LookKeepsTimes(w: World, s: State, ok: bool)
    requires TimeInv(s) && (s.phase.Idle? || s.phase.Stated? || s.phase.Loading? || s.phase.Reading?)
    ensures TimeInv(Advance(w, s, ok))
  {
  }

  lemma BuildKeepsTimes(w: World, s: State, ok: bool)
    requires TimeInv(s) && (s.phase.Lookup? || s.phase.Verifying? || s.phase.Compiling?)
    ensures TimeInv(Advance(w, s, ok))
  {
  }

  lemma SwapKeepsTimes(w: World, s: State, ok: bool)
    requires TimeInv(s) && (s.phase.Instantiating? || s.phase.Swapping? || s.phase.Seeding? || s.phase.Dead?)
    requires SeedMatches(s, Step(ok))
    ensures TimeInv(Advance(w, s, ok))
  {
  }

  lemma AdvanceKeepsTimes(w: World, s: State, ok: bool)
    requires TimeInv(s) && SeedMatches(s, Step(ok))
    ensures TimeInv(Advance(w, s, ok))
  {
    if s.phase.Idle? || s.phase.Stated? || s.phase.Loading? || s.phase.Reading? {
      LookKeepsTimes(w, s, ok);
    } else if s.phase.Lookup? || s.phase.Verifying? || s.phase.Compiling? {
      BuildKeepsTimes(w, s, ok);
    } else {
      SwapKeepsTimes(w, s, ok);
    }
  }

  lemma StepKeepsTimes(w: World, s: State, a: Action)
    requires TimeInv(s) && Enabled(s, a) && SeedMatches(s, a)
    ensures TimeInv(Apply(w, s, a))
  {
    if IsWrite(a) {
      WriteKeepsTimes(w, s, a);
    } else {
      AdvanceKeepsTimes(w, s, a.ok);
    }
  }

  ghost predicate SeededNext(w: World, s: State, t: State) {
    exists a :: Enabled(s, a) && SeedMatches(s, a) && t == Apply(w, s, a)
  }

  ghost function SeededSteps(w: World): (State, State) -> bool {
    (s, t) => SeededNext(w, s, t)
  }

  ghost predicate SeededRun(w: World, tr: seq<State>) {
    Chain(SeededSteps(w), tr) && Init(tr[0])
  }

  lemma {:induction false} ChainKeepsTimes(w: World, tr: seq<State>, i: nat)
    requires Chain(SeededSteps(w), tr) && TimeInv(tr[0]) && i < |tr|
    ensures TimeInv(tr[i])
  {
    if i > 0 {
      ChainKeepsTimes(w, tr, i - 1);
      StepInto(SeededSteps(w), tr, i);
      var a :| Enabled(tr[i - 1], a) && SeedMatches(tr[i - 1], a) && tr[i] == Apply(w, tr[i - 1], a);
      StepKeepsTimes(w, tr[i - 1], a);
    }
  }

  lemma RunKeepsTimes(w: World, tr: seq<State>, i: nat)
    requires SeededRun(w, tr) && i < |tr|
    ensures TimeInv(tr[i])
  {
    ChainKeepsTimes(w, tr, i);
  }

  function Rank(p: Phase): nat {
    match p
    case Stated(_) => 9
    case Loading(_) => 8
    case Reading(_, _) => 7
    case Lookup(_, _, _) => 6
    case Verifying(_, _, _) => 5
    case Compiling(_, _, _) => 4
    case Instantiating(_, _) => 3
    case Swapping(_, _) => 2
    case Seeding => 1
    case _ => 0
  }

  /** The rest of a tick in progress, without writes or failing calls. */
  function Finish(w: World, s: State): State
    decreases Rank(s.phase)
  {
    if s.phase.Idle? || s.phase.Dead? then s else Finish(w, Advance(w, s, true))
  }

  /** A whole undisturbed tick. */
  function Tick(w: World, s: State): State
    requires s.phase.Idle?
  {
    Finish(w, Advance(w, s, true))
  }

  /** The bundle on disk passes the whole load path. */
  predicate Loadable(w: World, s: State) {
    && s.bundle.Some? && w.compiles(s.bundle.value.bytes) && w.instantiates(s.bundle.value.bytes)
    && (w.keyed ==> s.sig.Some? && w.verifies(s.bundle.value.bytes, s.sig.value))
  }

  predicate SameDisk(s: State, t: State) {
    s.bundle == t.bundle && s.sig == t.sig && s.used == t.used
  }

  lemma AdvanceKeepsServing(w: World, s: State)
    requires Serving(s.phase) && !s.phase.Seeding? && !s.phase.Idle?
    ensures var t := Advance(w, s, true);
            Serving(t.phase) && !t.phase.Seeding? && SameDisk(s, t) && Rank(t.phase) < Rank(s.phase)
  {
  }

  lemma {:induction false} FinishKeepsTimes(w: World, s: State)
    requires TimeInv(s) && Serving(s.phase) && !s.phase.Seeding?
    ensures var t := Finish(w, s); TimeInv(t) && t.phase.Idle? && SameDisk(s, t)
    decreases Rank(s.phase)
  {
    if !s.phase.Idle? {
      AdvanceKeepsTimes(w, s, true);
      AdvanceKeepsServing(w, s);
      FinishKeepsTimes(w, Advance(w, s, true));
    }
  }

  predicate Converged(s: State) {
    && s.phase.Idle? && s.bundle.Some?
    && s.current == Some(Engine(s.bundle.value.bytes)) && s.lastMod == Some(s.bundle.value.mtime)
  }

  lemma {:induction false} LoadSucceeds(w: World, s: State)
    requires TimeInv(s) && Loadable(w, s) && Serving(s.phase)
    requires s.phase.Loading? || s.phase.Reading? || s.phase.Lookup? || s.phase.Verifying? || s.phase.Compiling?
             || s.phase.Instantiating? || s.phase.Swapping?
    requires s.phase.mod == Some(s.bundle.value.mtime) && (s.phase.Verifying? ==> w.keyed)
    ensures SameDisk(s, Finish(w, s)) && Converged(Finish(w, s))
    decreases Rank(s.phase)
  {
    StepKeepsTimes(w, s, Step(true));
    var t := Advance(w, s, true);
    match s.phase
    case Swapping(_, _) => assert Finish(w, s) == t;
    case Loading(_) => LoadSucceeds(w, t);
    case Reading(_, _) => LoadSucceeds(w, t);
    case Lookup(_, _, _) => LoadSucceeds(w, t);
    case Verifying(_, _, wasm) =>
      assert wasm == s.bundle.value.bytes;
      LoadSucceeds(w, t);
    case Compiling(_, _, wasm) =>
      assert wasm == s.bundle.value.bytes;
      LoadSucceeds(w, t);
    case Instantiating(_, source) =>
      assert source == s.bundle.value.bytes;
      LoadSucceeds(w, t);
  }

  /** A tick that finds the remembered time does nothing, whatever engine is being served. */
  lemma SettledTick(w: World, s: State)
    requires s.phase.Idle? && s.bundle.Some? && s.lastMod == Some(s.bundle.value.mtime)
    ensures Tick(w, s) == s
  {
    var t := Advance(w, s, true);
    assert Advance(w, t, true) == s;
    assert Finish(w, t) == Finish(w, s) == s;
  }

  lemma TickConverges(w: World, s: State)
    requires TimeInv(s) && s.phase.Idle? && Loadable(w, s)
    ensures SameDisk(s, Tick(w, s)) && Converged(Tick(w, s)) && Tick(w, Tick(w, s)) == Tick(w, s)
  {
    var t := Advance(w, s, true);
    StepKeepsTimes(w, s, Step(true));
    if s.lastMod == Some(s.bundle.value.mtime) {
      SettledTick(w, s);
    } else {
      StepKeepsTimes(w, t, Step(true));
      var u := Advance(w, t, true);
      LoadSucceeds(w, u);
      assert Finish(w, t) == Finish(w, u);
    }
    SettledTick(w, Tick(w, s));
  }

  /**
   Writes may have fallen anywhere before state n, also inside a tick. Once they stop at a bundle
   that passes the load path, the tick in progress ends, the next one serves that bundle, and all
   later ones change nothing.
   */
  lemma ConvergesWhenWritesStop(w: World, tr: seq<State>, n: nat)
    requires SeededRun(w, tr) && n < |tr| && Serving(tr[n].phase) && !tr[n].phase.Seeding? && Loadable(w, tr[n])
    ensures var idle := Finish(w, tr[n]);
            && idle.phase.Idle?
            && var done := Tick(w, idle);
               SameDisk(tr[n], done) && Converged(done) && Tick(w, done) == done
  {
    RunKeepsTimes(w, tr, n);
    FinishKeepsTimes(w, tr[n]);
    TickConverges(w, Finish(w, tr[n]));
  }

  /**
   The start of the process, undisturbed: it comes to serve the bundle exactly if the bundle passes
   the whole load path, and ends without an engine otherwise.
   */
  lemma FirstLoad(w: World, s: State)
    requires Init(s)
    ensures var t := Finish(w, s);
            if s.bundle.Some? && w.compiles(s.bundle.value.bytes) && w.instantiates(s.bundle.value.bytes)
               && (w.keyed ==> s.sig.Some? && w.verifies(s.bundle.value.bytes, s.sig.value))
            then t.phase.Idle? && t.current == Some(Engine(s.bundle.value.bytes))
                 && t.lastMod == Some(s.bundle.value.mtime) && SameDisk(s, t)
            else t.phase.Dead? && t.current == None
  {
    var t := Undisturbed(w, s);
    if s.bundle.Some? {
      t := Undisturbed(w, t);
      FirstBuild(w, t, s.bundle.value);
    }
  }

  lemma Undisturbed(w: World, s: State) returns (t: State)
    requires !s.phase.Idle? && !s.phase.Dead?
    ensures t == Advance(w, s, true) && Finish(w, s) == Finish(w, t)
    ensures t.phase.Idle? || t.phase.Dead? ==> Finish(w, s) == t
  {
    t := Advance(w, s, true);
  }

  lemma FirstBuild(w: World, s: State, f: File)
    requires s.phase == Lookup(None, f.mtime, f.bytes) && s.bundle == Some(f) && s.cache == None && s.current == None
    ensures var t := Finish(w, s);
            if w.compiles(f.bytes) && w.instantiates(f.bytes)
               && (w.keyed ==> s.sig.Some? && w.verifies(f.bytes, s.sig.value))
            then t.phase.Idle? && t.current == Some(Engine(f.bytes)) && t.lastMod == Some(f.mtime) && SameDisk(s, t)
            else t.phase.Dead? && t.current == None
  {
    var t := Undisturbed(w, s);
    if w.keyed {
      t := Undisturbed(w, t);
    }
    if t.phase.Compiling? {
      t := Undisturbed(w, t);
    }
    if t.phase.Instantiating? {
      t := Undisturbed(w, t);
    }
    if t.phase.Swapping? {
      t := Undisturbed(w, t);
      t := Undisturbed(w, t);
    }
  }

  /** The seeding condition is exact: a bundle written after the first load and before seeding is never served. */
  lemma SeedDecidesConvergence(w: World, s: State)
    requires s.phase.Seeding? && s.bundle.Some?
    ensures var seeded := Advance(w, s, true);
            && Tick(w, seeded) == seeded
            && (Converged(seeded) <==> SeedMatches(s, Step(true)))
  {
    SettledTick(w, Advance(w, s, true));
  }
}
